/**
 * How the transform function names its output object: the incoming key with
 * its last five characters cut off by a Python slice, followed by ".csv"
 * (lambda_function2.py, `object_key[:-5]` and `f"{target_file_name}.csv"`).
 */
module ObjectKeys {

  /** The extension the transform function appends to its output key. */
  const CsvSuffix: string := ".csv"

  /** The extension the pipeline gives to the objects that trigger the transform. */
  const JsonSuffix: string := ".json"

  /** How many trailing characters `object_key[:-5]` removes. */
  const DroppedLength: nat := 5

  function Min(a: int, b: int): int { if a <= b then a else b }

  /**
   * Python's `s[:stop]`: a negative stop counts back from the end, and a stop
   * outside the sequence is clamped to it, so no slice ever fails.
   */
  function SliceTo(s: string, stop: int): string
  {
    var k := if stop < 0 then stop + |s| else stop;
    s[..if k < 0 then 0 else if k > |s| then |s| else k]
  }

  /**
   * `object_key[:-5]`: the key with its last five characters removed, or the
   * empty string when the key has five characters or fewer.
   */
  function TargetFileName(key: string): (r: string)
    ensures |key| - |r| == Min(DroppedLength, |key|)
    ensures r + key[|r|..] == key
  {
    SliceTo(key, -(DroppedLength as int))
  }

  /** The key under which the CSV is uploaded: `f"{object_key[:-5]}.csv"`. */
  function OutputKey(key: string): (r: string)
    ensures |r| == |key| - Min(DroppedLength, |key|) + |CsvSuffix|
    ensures r[..|r| - |CsvSuffix|] <= key
    ensures r[|r| - |CsvSuffix|..] == CsvSuffix
  {
    TargetFileName(key) + CsvSuffix
  }

  /** A key `stem + ".json"` becomes `stem + ".csv"`, whatever dots the stem holds. */
  lemma OutputKeyOfJson(stem: string)
    ensures OutputKey(stem + JsonSuffix) == stem + CsvSuffix
  {
  }

  /** A key of at most five characters yields exactly ".csv"; the slice never fails. */
  lemma OutputKeyOfShortKey(key: string)
    requires |key| <= DroppedLength
    ensures OutputKey(key) == CsvSuffix
  {
  }

  /** Two JSON keys with different stems never share an output key. */
  lemma OutputKeyInjectiveOnJson(stem1: string, stem2: string)
    requires OutputKey(stem1 + JsonSuffix) == OutputKey(stem2 + JsonSuffix)
    ensures stem1 == stem2
  {
  }

  /**
   * The rule counts characters and does not look for an extension: a key
   * ending in ".jsonl" keeps its dot, and "a.b.json" keeps both of its stems.
   */
  lemma OutputKeyIsNotExtensionAware()
    ensures OutputKey("data.jsonl") == "data..csv"
    ensures OutputKey("a.b.json") == "a.b.csv"
    ensures OutputKey("x.csv") == ".csv"
  {
  }
}
