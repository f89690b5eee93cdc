/**
 * `Utils.remove_symbols` and `Utils.get_random_string` (src/wktplot/utils.py).
 * `remove_symbols` differs from `sanitize_text` only by stripping every run
 * it keeps, which never changes a run of letters and digits.
 */
module Utils {
  import FileUtils

  /** The characters `str.isspace` accepts. */
  predicate IsSpace(c: char) {
    var n := c as int;
    (0x09 <= n <= 0x0D) || (0x1C <= n <= 0x20) || n == 0x85 || n == 0xA0 || n == 0x1680
    || (0x2000 <= n <= 0x200A) || n == 0x2028 || n == 0x2029 || n == 0x202F || n == 0x205F
    || n == 0x3000
  }

  function StripLeft(s: string): string {
    if |s| > 0 && IsSpace(s[0]) then StripLeft(s[1..]) else s
  }

  function StripRight(s: string): string {
    if |s| > 0 && IsSpace(s[|s| - 1]) then StripRight(s[..|s| - 1]) else s
  }

  /** `str.strip` with no argument. */
  function Strip(s: string): string {
    StripRight(StripLeft(s))
  }

  /** `map(str.strip, words)`. */
  function StripAll(words: seq<string>): (r: seq<string>)
    ensures |r| == |words|
    ensures forall k | 0 <= k < |words| :: r[k] == Strip(words[k])
  {
    seq(|words|, k requires 0 <= k < |words| => Strip(words[k]))
  }

  /** `remove_symbols`. */
  function RemoveSymbols(text: string): string {
    FileUtils.Join(StripAll(FileUtils.FindAll(FileUtils.Lower(text))), '_')
  }

  /** A run of letters and digits is left alone by `strip`. */
  lemma StripAlphaNum(w: string)
    requires forall i | 0 <= i < |w| :: FileUtils.IsAlphaNum(w[i])
    ensures Strip(w) == w
  {
  }

  /** `remove_symbols` and `sanitize_text` agree on every input. */
  lemma RemoveSymbolsIsSanitize(text: string)
    ensures RemoveSymbols(text) == FileUtils.SanitizeText(text)
  {
    var ws := FileUtils.FindAll(FileUtils.Lower(text));
    FileUtils.ScanWords(FileUtils.Lower(text), "", _ => true);
    forall k | 0 <= k < |ws| ensures Strip(ws[k]) == ws[k] {
      assert FileUtils.IsWord(ws[k], _ => true);
      StripAlphaNum(ws[k]);
    }
    assert StripAll(ws) == ws;
  }

  /** The fixed cases of the `remove_symbols` tests. */
  lemma RemoveSymbolsExamples()
    ensures RemoveSymbols("hello") == "hello"
    ensures RemoveSymbols("hello 123") == "hello_123"
    ensures RemoveSymbols("wowzers . 456789") == "wowzers_456789"
    ensures RemoveSymbols("123 yep ok") == "123_yep_ok"
    ensures RemoveSymbols("okeey !@#$%^&*()[]\\|;'\"_<>?`~") == "okeey"
  {
    RemoveSymbolsIsSanitize("hello");
    FileUtils.LowerNoUpper("hello");
    FileUtils.ScanLastWord("hello");
    RemoveSymbolsIsSanitize("hello 123");
    FileUtils.SanitizeSpaceExample();
    RemoveSymbolsIsSanitize("wowzers . 456789");
    FileUtils.SanitizeDotExample();
    RemoveSymbolsIsSanitize("123 yep ok");
    FileUtils.SanitizeThreeWordsExample();
    RemoveSymbolsIsSanitize("okeey !@#$%^&*()[]\\|;'\"_<>?`~");
    FileUtils.SanitizeTrailingSymbolsExample();
  }

  /** `get_random_string`: the same draw as `file_utils.get_random_string`. */
  method GetRandomString(stringLength: int := 6) returns (s: string)
    ensures |s| == if stringLength < 0 then 0 else stringLength
    ensures forall i | 0 <= i < |s| :: FileUtils.IsAlphaNum(s[i])
  {
    s := FileUtils.GetRandomString(stringLength);
    FileUtils.OptionsAreAlphaNum();
  }
}
