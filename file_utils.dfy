/**
 * `sanitize_text` and `get_random_string` (src/wktplot/common/file_utils.py).
 * `sanitize_text` lowercases its input, keeps the maximal runs of ASCII
 * letters and digits (`[A-Za-z0-9]+`) and joins them with `_`.
 */
module FileUtils {

  predicate IsAlphaNum(c: char) {
    ('a' <= c <= 'z') || ('A' <= c <= 'Z') || ('0' <= c <= '9')
  }

  predicate IsLowerAlphaNum(c: char) {
    ('a' <= c <= 'z') || ('0' <= c <= '9')
  }

  /** The characters a sanitized name can hold: `[a-z0-9_]`. */
  predicate IsSanitizedChar(c: char) {
    IsLowerAlphaNum(c) || c == '_'
  }

  /** `str.lower` on one character, for the ASCII letters. */
  function LowerChar(c: char): char {
    if 'A' <= c <= 'Z' then (c as int - 'A' as int + 'a' as int) as char else c
  }

  function Lower(s: string): (r: string)
    ensures |r| == |s|
    ensures forall i | 0 <= i < |s| :: r[i] == LowerChar(s[i])
  {
    seq(|s|, i requires 0 <= i < |s| => LowerChar(s[i]))
  }

  /** `ALPHA_NUM_REGEX.findall(s)`: the maximal alphanumeric runs of `s`, left to right. */
  function FindAll(s: string): seq<string> {
    Scan(s, "")
  }

  /** The scan behind `FindAll`, with the run read so far. */
  function Scan(s: string, run: string): seq<string>
    decreases |s|
  {
    if |s| == 0 then (if |run| == 0 then [] else [run])
    else if IsAlphaNum(s[0]) then Scan(s[1..], run + [s[0]])
    else (if |run| == 0 then [] else [run]) + Scan(s[1..], "")
  }

  /** `sep.join(words)`. */
  function Join(words: seq<string>, sep: char): string
    decreases |words|
  {
    if |words| == 0 then ""
    else if |words| == 1 then words[0]
    else words[0] + [sep] + Join(words[1..], sep)
  }

  /** Once the runs of a text are known, its sanitized form is their join. */
  lemma SanitizeFromRuns(text: string, words: seq<string>)
    requires FindAll(Lower(text)) == words
    ensures SanitizeText(text) == Join(words, '_')
  {
  }

  lemma JoinTwo(a: string, b: string, sep: char)
    ensures Join([a, b], sep) == a + [sep] + b
  {
    assert [a, b][1..] == [b];
  }

  lemma JoinThree(a: string, b: string, c: string, sep: char)
    ensures Join([a, b, c], sep) == a + [sep] + b + [sep] + c
  {
    assert [a, b, c][1..] == [b, c];
    JoinTwo(b, c, sep);
  }

  /** `sanitize_text`. */
  function SanitizeText(text: string): string {
    Join(FindAll(Lower(text)), '_')
  }

  /** A non-empty run of alphanumerics satisfying `p`. */
  predicate IsWord(w: string, p: char -> bool) {
    |w| > 0 && forall i | 0 <= i < |w| :: IsAlphaNum(w[i]) && p(w[i])
  }

  /** Every run the scan returns is a non-empty alphanumeric word built from characters of its input. */
  lemma {:induction false} ScanWords(s: string, run: string, p: char -> bool)
    requires forall i | 0 <= i < |run| :: IsAlphaNum(run[i]) && p(run[i])
    requires forall i | 0 <= i < |s| :: IsAlphaNum(s[i]) ==> p(s[i])
    ensures forall k | 0 <= k < |Scan(s, run)| :: IsWord(Scan(s, run)[k], p)
    decreases |s|
  {
    if |s| > 0 {
      if IsAlphaNum(s[0]) {
        ScanWords(s[1..], run + [s[0]], p);
      } else {
        ScanWords(s[1..], "", p);
      }
    }
  }

  /** Joining words over an alphabet without `_` gives a string over that alphabet plus `_`, in which every `_` sits between two word characters. */
  lemma {:induction false} JoinShape(ws: seq<string>, p: char -> bool)
    requires forall k | 0 <= k < |ws| :: IsWord(ws[k], p)
    requires forall c :: p(c) ==> c != '_'
    ensures var r := Join(ws, '_');
      && (|ws| > 0 ==> |ws[0]| > 0 && |r| > 0 && r[0] == ws[0][0])
      && (forall i | 0 <= i < |r| :: p(r[i]) || r[i] == '_')
      && (forall i | 0 <= i < |r| && r[i] == '_' :: 0 < i < |r| - 1 && p(r[i - 1]) && p(r[i + 1]))
    decreases |ws|
  {
    if |ws| > 1 {
      JoinShape(ws[1..], p);
      var r := Join(ws, '_');
      var w, rest := ws[0], Join(ws[1..], '_');
      assert r == w + ['_'] + rest;
      assert forall i | 0 <= i < |w| :: r[i] == w[i] && p(r[i]);
      forall i | 0 <= i < |r| && r[i] == '_'
        ensures 0 < i < |r| - 1 && p(r[i - 1]) && p(r[i + 1])
      {
        if i == |w| {
          assert r[i - 1] == w[|w| - 1];
          assert r[i + 1] == rest[0];
        } else if i > |w| {
          assert r[i] == rest[i - |w| - 1];
          if i - |w| - 1 > 0 {
            assert r[i - 1] == rest[i - |w| - 2];
          }
          assert r[i + 1] == rest[i - |w|];
        }
      }
      forall i | 0 <= i < |r|
        ensures p(r[i]) || r[i] == '_'
      {
        if i > |w| {
          assert r[i] == rest[i - |w| - 1];
        }
      }
    }
  }

  /**
   * A sanitized name holds only `[a-z0-9_]`; it neither starts nor ends with
   * `_`, and has no `__`: every `_` sits between two letters or digits.
   */
  lemma SanitizedShape(text: string)
    ensures var r := SanitizeText(text);
      && (forall i | 0 <= i < |r| :: IsSanitizedChar(r[i]))
      && (forall i | 0 <= i < |r| && r[i] == '_' :: 0 < i < |r| - 1 && IsLowerAlphaNum(r[i - 1]) && IsLowerAlphaNum(r[i + 1]))
  {
    var low := Lower(text);
    ScanWords(low, "", IsLowerAlphaNum);
    JoinShape(FindAll(low), IsLowerAlphaNum);
  }

  /** No upper-case letter survives sanitizing. */
  lemma NoUpperCase(text: string)
    ensures forall i | 0 <= i < |SanitizeText(text)| :: !('A' <= SanitizeText(text)[i] <= 'Z')
  {
    SanitizedShape(text);
  }

  /** The alphanumeric characters of `s`, in order. */
  function AlphaNums(s: string): string {
    if |s| == 0 then "" else (if IsAlphaNum(s[0]) then [s[0]] else "") + AlphaNums(s[1..])
  }

  function Concat(ws: seq<string>): string {
    if |ws| == 0 then "" else ws[0] + Concat(ws[1..])
  }

  lemma {:induction false} ConcatAppend(a: seq<string>, b: seq<string>)
    ensures Concat(a + b) == Concat(a) + Concat(b)
  {
    if |a| > 0 {
      assert (a + b)[1..] == a[1..] + b;
      ConcatAppend(a[1..], b);
    } else {
      assert a + b == b;
    }
  }

  /** The runs, put end to end, are exactly the alphanumeric characters of the input, in order. */
  lemma {:induction false} ScanKeepsAlphaNums(s: string, run: string)
    ensures Concat(Scan(s, run)) == run + AlphaNums(s)
    decreases |s|
  {
    if |s| == 0 {
    } else if IsAlphaNum(s[0]) {
      ScanKeepsAlphaNums(s[1..], run + [s[0]]);
    } else {
      ScanKeepsAlphaNums(s[1..], "");
      var head: seq<string> := if |run| == 0 then [] else [run];
      ConcatAppend(head, Scan(s[1..], ""));
    }
  }

  /** The number of maximal alphanumeric runs of `s`, counting a run already open before it when `open`. */
  function RunStarts(s: string, open: bool): nat {
    if |s| == 0 then 0
    else if IsAlphaNum(s[0]) then (if open then 0 else 1) + RunStarts(s[1..], true)
    else RunStarts(s[1..], false)
  }

  lemma {:induction false} ScanCountsRuns(s: string, run: string)
    ensures |Scan(s, run)| == RunStarts(s, |run| > 0) + (if |run| > 0 then 1 else 0)
    decreases |s|
  {
    if |s| > 0 {
      if IsAlphaNum(s[0]) {
        ScanCountsRuns(s[1..], run + [s[0]]);
      } else {
        ScanCountsRuns(s[1..], "");
      }
    }
  }

  /** A maximal run of `s` starts at `i`: an alphanumeric not preceded by one. */
  predicate StartsRun(s: string, i: int) {
    0 <= i < |s| && IsAlphaNum(s[i]) && (i == 0 || !IsAlphaNum(s[i - 1]))
  }

  /** Where the alphanumeric stretch of `s` beginning at `i` ends. */
  function RunEnd(s: string, i: nat): (j: nat)
    requires i <= |s|
    ensures i <= j <= |s|
    ensures forall k | i <= k < j :: IsAlphaNum(s[k])
    ensures j == |s| || !IsAlphaNum(s[j])
    decreases |s| - i
  {
    if i == |s| || !IsAlphaNum(s[i]) then i else RunEnd(s, i + 1)
  }

  /** The maximal runs of `s` that start at or after `i`, left to right: `s[i..RunEnd(s, i)]` for every run start `i`. */
  function RunsFrom(s: string, i: nat): seq<string>
    requires i <= |s|
    decreases |s| - i
  {
    if i == |s| then []
    else if StartsRun(s, i) then [s[i..RunEnd(s, i)]] + RunsFrom(s, i + 1)
    else RunsFrom(s, i + 1)
  }

  /** The maximal alphanumeric runs of `s`, defined by their boundaries. */
  function Runs(s: string): seq<string> {
    RunsFrom(s, 0)
  }

  /** What scanning from `i` with the open run `run` yields: that run completed, then the runs starting after it. */
  function ScanFrom(s: string, i: nat, run: string): seq<string>
    requires i <= |s|
  {
    (if |run| > 0 then [run + s[i..RunEnd(s, i)]] else []) + RunsFrom(s, i)
  }

  /**
   * Scanning from `i` with the open run `run` (the part of the current run
   * before `i`) completes that run up to its end and then yields the runs
   * starting after it.
   */
  lemma {:induction false} ScanIsRunsFrom(s: string, i: nat, run: string)
    requires i <= |s|
    requires |run| > 0 ==> 0 < i && IsAlphaNum(s[i - 1])
    requires |run| == 0 ==> i == 0 || !IsAlphaNum(s[i - 1])
    ensures Scan(s[i..], run) == ScanFrom(s, i, run)
    decreases |s| - i
  {
    if i == |s| {
      assert s[i..RunEnd(s, i)] == "";
      assert run + "" == run;
    } else if IsAlphaNum(s[i]) {
      ScanIsRunsFrom(s, i + 1, run + [s[i]]);
      ScanStepAlphaNum(s, i, run);
    } else {
      ScanIsRunsFrom(s, i + 1, "");
      ScanStepSeparator(s, i, run);
    }
  }

  /** One step of the scan from position `i`. */
  lemma ScanUnfold(s: string, i: nat, run: string)
    requires i < |s|
    ensures IsAlphaNum(s[i]) ==> Scan(s[i..], run) == Scan(s[i + 1..], run + [s[i]])
    ensures !IsAlphaNum(s[i]) ==> Scan(s[i..], run) == (if |run| == 0 then [] else [run]) + Scan(s[i + 1..], "")
  {
    assert s[i..][0] == s[i] && s[i..][1..] == s[i + 1..];
  }

  lemma ScanStepAlphaNum(s: string, i: nat, run: string)
    requires i < |s| && IsAlphaNum(s[i])
    requires |run| > 0 ==> 0 < i && IsAlphaNum(s[i - 1])
    requires |run| == 0 ==> i == 0 || !IsAlphaNum(s[i - 1])
    requires Scan(s[i + 1..], run + [s[i]]) == ScanFrom(s, i + 1, run + [s[i]])
    ensures Scan(s[i..], run) == ScanFrom(s, i, run)
  {
    ScanUnfold(s, i, run);
    RunEndStep(s, i);
    RunsFromStep(s, i);
    var e := RunEnd(s, i);
    WordStep(s, i, e, run);
    assert StartsRun(s, i) <==> |run| == 0;
  }

  lemma RunEndStep(s: string, i: nat)
    requires i < |s| && IsAlphaNum(s[i])
    ensures RunEnd(s, i) == RunEnd(s, i + 1)
  {
  }

  lemma RunsFromStep(s: string, i: nat)
    requires i < |s|
    ensures RunsFrom(s, i) == (if StartsRun(s, i) then [s[i..RunEnd(s, i)]] else []) + RunsFrom(s, i + 1)
  {
  }

  lemma WordStep(s: string, i: nat, e: nat, run: string)
    requires i < e <= |s|
    ensures run + [s[i]] + s[i + 1..e] == run + s[i..e]
    ensures [] + [s[i..e]] == [s[i..e]] && "" + s[i..e] == s[i..e]
  {
    assert s[i..e] == [s[i]] + s[i + 1..e];
  }

  lemma ScanStepSeparator(s: string, i: nat, run: string)
    requires i < |s| && !IsAlphaNum(s[i])
    requires Scan(s[i + 1..], "") == ScanFrom(s, i + 1, "")
    ensures Scan(s[i..], run) == ScanFrom(s, i, run)
  {
    ScanUnfold(s, i, run);
    assert s[i..RunEnd(s, i)] == "";
    assert run + "" == run;
    assert !StartsRun(s, i);
  }

  /**
   * `findall` returns the maximal runs: for every run start `i`, in order,
   * the word `s[i..RunEnd(s, i)]`, which ends just before the next
   * non-alphanumeric character or the end of `s`. There is one non-empty word
   * per run start, and together the words hold every alphanumeric character
   * of the input in order.
   */
  lemma FindAllIsMaximalRuns(s: string)
    ensures FindAll(s) == Runs(s)
    ensures |FindAll(s)| == RunStarts(s, false)
    ensures Concat(FindAll(s)) == AlphaNums(s)
    ensures forall k | 0 <= k < |FindAll(s)| :: |FindAll(s)[k]| > 0
  {
    ScanIsRunsFrom(s, 0, "");
    assert s[0..] == s;
    ScanCountsRuns(s, "");
    ScanKeepsAlphaNums(s, "");
    ScanWords(s, "", c => true);
  }

  /** Without any ASCII letter or digit there is nothing to keep. */
  lemma {:induction false} NoAlphaNumGivesEmpty(text: string)
    requires forall i | 0 <= i < |text| :: !IsAlphaNum(text[i])
    ensures SanitizeText(text) == ""
  {
    NoAlphaNumScan(Lower(text));
  }

  lemma {:induction false} NoAlphaNumScan(s: string)
    requires forall i | 0 <= i < |s| :: !IsAlphaNum(s[i])
    ensures Scan(s, "") == []
    decreases |s|
  {
    if |s| > 0 {
      NoAlphaNumScan(s[1..]);
    }
  }

  lemma {:induction false} ScanThroughWord(w: string, rest: string, run: string)
    requires forall i | 0 <= i < |w| :: IsAlphaNum(w[i])
    ensures Scan(w + rest, run) == Scan(rest, run + w)
    decreases |w|
  {
    if |w| > 0 {
      assert (w + rest)[0] == w[0];
      assert (w + rest)[1..] == w[1..] + rest;
      ScanThroughWord(w[1..], rest, run + [w[0]]);
      assert run + [w[0]] + w[1..] == run + w;
    } else {
      assert w + rest == rest;
      assert run + w == run;
    }
  }

  /** Scanning a `_`-joined list of words gives the words back. */
  lemma {:induction false} ScanJoin(ws: seq<string>)
    requires forall k | 0 <= k < |ws| :: IsWord(ws[k], c => true)
    ensures Scan(Join(ws, '_'), "") == ws
    decreases |ws|
  {
    if |ws| == 1 {
      assert IsWord(ws[0], c => true);
      assert ws[0] + "" == ws[0];
      assert "" + ws[0] == ws[0];
      ScanThroughWord(ws[0], "", "");
    } else if |ws| > 1 {
      var rest := Join(ws[1..], '_');
      assert Join(ws, '_') == ws[0] + (['_'] + rest);
      ScanThroughWord(ws[0], ['_'] + rest, "");
      assert "" + ws[0] == ws[0];
      assert (['_'] + rest)[1..] == rest;
      ScanJoin(ws[1..]);
      assert ws == [ws[0]] + ws[1..];
    }
  }

  lemma LowerOfSanitized(text: string)
    ensures Lower(SanitizeText(text)) == SanitizeText(text)
  {
    SanitizedShape(text);
  }

  /** Sanitizing a sanitized name changes nothing. */
  lemma SanitizeIdempotent(text: string)
    ensures SanitizeText(SanitizeText(text)) == SanitizeText(text)
  {
    var ws := FindAll(Lower(text));
    ScanWords(Lower(text), "", c => true);
    ScanJoin(ws);
    LowerOfSanitized(text);
  }

  /** Splitting a sanitized name at its `_` characters gives back the runs of the lower-cased input. */
  lemma SanitizeRetokenizes(text: string)
    ensures FindAll(SanitizeText(text)) == FindAll(Lower(text))
  {
    ScanWords(Lower(text), "", c => true);
    ScanJoin(FindAll(Lower(text)));
  }

  /** `s` holds no letter or digit. */
  predicate Separators(s: string) {
    forall i | 0 <= i < |s| :: !IsAlphaNum(s[i])
  }

  /** A word followed by separators opens the list of runs. */
  lemma ScanWordThenSeparators(w: string, sep: string, rest: string)
    requires |w| > 0 && forall i | 0 <= i < |w| :: IsAlphaNum(w[i])
    requires |sep| > 0 && Separators(sep)
    ensures Scan(w + sep + rest, "") == [w] + Scan(rest, "")
  {
    ScanThroughWord(w, sep + rest, "");
    assert w + sep + rest == w + (sep + rest);
    assert "" + w == w;
    SkipSeparators(sep, rest, w);
  }

  lemma {:induction false} SkipSeparators(sep: string, rest: string, run: string)
    requires |run| > 0
    requires |sep| > 0 && Separators(sep)
    ensures Scan(sep + rest, run) == [run] + Scan(rest, "")
    decreases |sep|
  {
    assert (sep + rest)[0] == sep[0];
    assert (sep + rest)[1..] == sep[1..] + rest;
    if |sep| > 1 {
      SkipSeparatorsFresh(sep[1..], rest);
    } else {
      assert sep[1..] + rest == rest;
    }
  }

  lemma {:induction false} SkipSeparatorsFresh(sep: string, rest: string)
    requires forall i | 0 <= i < |sep| :: !IsAlphaNum(sep[i])
    ensures Scan(sep + rest, "") == Scan(rest, "")
    decreases |sep|
  {
    if |sep| > 0 {
      assert (sep + rest)[0] == sep[0];
      assert (sep + rest)[1..] == sep[1..] + rest;
      SkipSeparatorsFresh(sep[1..], rest);
    } else {
      assert sep + rest == rest;
    }
  }

  lemma LowerNoUpper(s: string)
    requires forall i | 0 <= i < |s| :: !('A' <= s[i] <= 'Z')
    ensures Lower(s) == s
  {
  }

  lemma ScanLastWord(w: string)
    requires |w| > 0 && forall i | 0 <= i < |w| :: IsAlphaNum(w[i])
    ensures Scan(w, "") == [w]
  {
    ScanThroughWord(w, "", "");
    assert w + "" == w;
    assert "" + w == w;
  }

  /** Two words with separators between them give two runs. */
  lemma ScanTwoWords(a: string, s1: string, b: string)
    requires IsWord(a, _ => true) && IsWord(b, _ => true)
    requires |s1| > 0 && Separators(s1)
    ensures Scan(a + s1 + b, "") == [a, b]
  {
    ScanWordThenSeparators(a, s1, b);
    ScanLastWord(b);
  }

  /** Three words with separators between them give three runs. */
  lemma ScanThreeWords(a: string, s1: string, b: string, s2: string, c: string)
    requires IsWord(a, _ => true) && IsWord(b, _ => true) && IsWord(c, _ => true)
    requires |s1| > 0 && Separators(s1) && |s2| > 0 && Separators(s2)
    ensures Scan(a + s1 + b + s2 + c, "") == [a, b, c]
  {
    assert a + s1 + b + s2 + c == a + s1 + (b + s2 + c);
    ScanWordThenSeparators(a, s1, b + s2 + c);
    ScanWordThenSeparators(b, s2, c);
    ScanLastWord(c);
  }

  /** Lowering works character by character, so it distributes over concatenation. */
  lemma LowerAppend(x: string, y: string)
    ensures Lower(x + y) == Lower(x) + Lower(y)
  {
  }

  /** Lower-case words and separators are left alone by lowering. */
  lemma LowerOfLowerWord(w: string)
    requires IsWord(w, IsLowerAlphaNum) || Separators(w)
    ensures Lower(w) == w
  {
    LowerNoUpper(w);
  }

  /** Two lower-case words with separators between them sanitize to the two words joined by `_`. */
  lemma SanitizeTwoWords(a: string, s1: string, b: string)
    requires IsWord(a, IsLowerAlphaNum) && IsWord(b, IsLowerAlphaNum)
    requires |s1| > 0 && Separators(s1)
    ensures SanitizeText(a + s1 + b) == a + "_" + b
  {
    LowerAppend(a, s1);
    LowerAppend(a + s1, b);
    LowerOfLowerWord(a);
    LowerOfLowerWord(s1);
    LowerOfLowerWord(b);
    assert IsWord(a, _ => true) && IsWord(b, _ => true);
    ScanTwoWords(a, s1, b);
    SanitizeFromRuns(a + s1 + b, [a, b]);
    JoinTwo(a, b, '_');
  }

  /** Three lower-case words with separators between them sanitize to the three words joined by `_`. */
  lemma SanitizeThreeWords(a: string, s1: string, b: string, s2: string, c: string)
    requires IsWord(a, IsLowerAlphaNum) && IsWord(b, IsLowerAlphaNum) && IsWord(c, IsLowerAlphaNum)
    requires |s1| > 0 && Separators(s1) && |s2| > 0 && Separators(s2)
    ensures SanitizeText(a + s1 + b + s2 + c) == a + "_" + b + "_" + c
  {
    LowerAppend(a, s1);
    LowerAppend(a + s1, b);
    LowerAppend(a + s1 + b, s2);
    LowerAppend(a + s1 + b + s2, c);
    LowerOfLowerWord(a);
    LowerOfLowerWord(s1);
    LowerOfLowerWord(b);
    LowerOfLowerWord(s2);
    LowerOfLowerWord(c);
    assert IsWord(a, _ => true) && IsWord(b, _ => true) && IsWord(c, _ => true);
    ScanThreeWords(a, s1, b, s2, c);
    SanitizeFromRuns(a + s1 + b + s2 + c, [a, b, c]);
    JoinThree(a, b, c, '_');
  }

  /** The example of the `sanitize_text` documentation. */
  lemma SanitizeDocExample()
    ensures SanitizeText("wow 123_ @#$%    1") == "wow_123_1"
  {
    DocExamplePieces();
    SanitizeThreeWords("wow", " ", "123", "_ @#$%    ", "1");
  }

  /** The literal facts of the documentation example: its words, its separators, and their join. */
  lemma DocExamplePieces()
    ensures "wow 123_ @#$%    1" == "wow" + " " + "123" + "_ @#$%    " + "1"
    ensures IsWord("wow", IsLowerAlphaNum) && IsWord("123", IsLowerAlphaNum) && IsWord("1", IsLowerAlphaNum)
    ensures Separators(" ") && Separators("_ @#$%    ")
    ensures "wow" + "_" + "123" + "_" + "1" == "wow_123_1"
  {
  }

  lemma MixedCaseRuns()
    ensures FindAll(Lower("Michael Plot ABC123")) == ["michael", "plot", "abc123"]
  {
    MixedCaseLower();
    ScanThreeWords("michael", " ", "plot", " ", "abc123");
  }

  lemma MixedCaseLower()
    ensures Lower("Michael Plot ABC123") == "michael" + " " + "plot" + " " + "abc123"
  {
    assert Lower("Michael Plot ABC123") == "michael plot abc123";
  }

  /** Upper-case letters are lowered and spaces become `_`. */
  lemma SanitizeMixedCaseExample()
    ensures SanitizeText("Michael Plot ABC123") == "michael_plot_abc123"
  {
    MixedCaseRuns();
    SanitizeFromRuns("Michael Plot ABC123", ["michael", "plot", "abc123"]);
    MixedCaseJoined();
  }

  lemma MixedCaseJoined()
    ensures Join(["michael", "plot", "abc123"], '_') == "michael_plot_abc123"
  {
    JoinThree("michael", "plot", "abc123", '_');
  }

  lemma SanitizeSpaceExample()
    ensures SanitizeText("hello 123") == "hello_123"
  {
    SpaceExamplePieces();
    SanitizeTwoWords("hello", " ", "123");
  }

  lemma SpaceExamplePieces()
    ensures "hello 123" == "hello" + " " + "123"
    ensures IsWord("hello", IsLowerAlphaNum) && IsWord("123", IsLowerAlphaNum) && Separators(" ")
    ensures "hello" + "_" + "123" == "hello_123"
  {
  }

  lemma SanitizeDotExample()
    ensures SanitizeText("wowzers . 456789") == "wowzers_456789"
  {
    DotExamplePieces();
    SanitizeTwoWords("wowzers", " . ", "456789");
  }

  lemma DotExamplePieces()
    ensures "wowzers . 456789" == "wowzers" + " . " + "456789"
    ensures IsWord("wowzers", IsLowerAlphaNum) && IsWord("456789", IsLowerAlphaNum) && Separators(" . ")
    ensures "wowzers" + "_" + "456789" == "wowzers_456789"
  {
  }

  lemma SanitizeThreeWordsExample()
    ensures SanitizeText("123 yep ok") == "123_yep_ok"
  {
    ThreeWordsExamplePieces();
    SanitizeThreeWords("123", " ", "yep", " ", "ok");
  }

  lemma ThreeWordsExamplePieces()
    ensures "123 yep ok" == "123" + " " + "yep" + " " + "ok"
    ensures IsWord("123", IsLowerAlphaNum) && IsWord("yep", IsLowerAlphaNum) && IsWord("ok", IsLowerAlphaNum)
    ensures Separators(" ")
    ensures "123" + "_" + "yep" + "_" + "ok" == "123_yep_ok"
  {
  }

  /** The literal facts the trailing-symbols example needs: no upper case, one word, then only separators. */
  lemma TrailingSymbolsLower()
    ensures Lower("okeey !@#$%^&*()[]\\|;'\"_<>?`~") == "okeey !@#$%^&*()[]\\|;'\"_<>?`~"
  {
    LowerNoUpper("okeey !@#$%^&*()[]\\|;'\"_<>?`~");
  }

  lemma TrailingSymbolsSplit()
    ensures "okeey !@#$%^&*()[]\\|;'\"_<>?`~" == "okeey" + " !@#$%^&*()[]\\|;'\"_<>?`~" + ""
  {
  }

  lemma TrailingSymbolsSeparators()
    ensures Separators(" !@#$%^&*()[]\\|;'\"_<>?`~")
  {
  }

  lemma TrailingSymbolsExampleRuns()
    ensures FindAll(Lower("okeey !@#$%^&*()[]\\|;'\"_<>?`~")) == ["okeey"]
  {
    TrailingSymbolsLower();
    TrailingSymbolsSplit();
    TrailingSymbolsSeparators();
    ScanWordThenSeparators("okeey", " !@#$%^&*()[]\\|;'\"_<>?`~", "");
  }

  /** Symbols after the only run, `_` among them, are dropped. */
  lemma SanitizeTrailingSymbolsExample()
    ensures SanitizeText("okeey !@#$%^&*()[]\\|;'\"_<>?`~") == "okeey"
  {
    TrailingSymbolsExampleRuns();
  }

  /** `string.ascii_letters + string.digits`. */
  const ASCII_LOWERCASE: string := seq(26, i requires 0 <= i < 26 => ('a' as int + i) as char)
  const ASCII_UPPERCASE: string := seq(26, i requires 0 <= i < 26 => ('A' as int + i) as char)
  const DIGITS: string := seq(10, i requires 0 <= i < 10 => ('0' as int + i) as char)
  const OPTIONS: string := ASCII_LOWERCASE + ASCII_UPPERCASE + DIGITS

  /**
   * `get_random_string`: `random.choices` over OPTIONS with `k = string_length`.
   * The draw itself is an arbitrary choice; a negative length gives "".
   */
  method GetRandomString(stringLength: int := 6) returns (s: string)
    ensures |s| == if stringLength < 0 then 0 else stringLength
    ensures forall i | 0 <= i < |s| :: s[i] in OPTIONS
  {
    var k := if stringLength < 0 then 0 else stringLength;
    ghost var sample := seq(k, _ => 'a');
    assert OPTIONS[0] == 'a';
    assert |sample| == k && forall i | 0 <= i < |sample| :: sample[i] in OPTIONS;
    s :| |s| == k && forall i | 0 <= i < |s| :: s[i] in OPTIONS;
  }

  /** Every character `get_random_string` can draw is an ASCII letter or digit. */
  lemma OptionsAreAlphaNum()
    ensures |OPTIONS| == 62
    ensures forall c :: c in OPTIONS <==> IsAlphaNum(c)
  {
    forall c | IsAlphaNum(c) ensures c in OPTIONS {
      if 'a' <= c <= 'z' {
        assert OPTIONS[c as int - 'a' as int] == c;
      } else if 'A' <= c <= 'Z' {
        assert OPTIONS[26 + c as int - 'A' as int] == c;
      } else {
        assert OPTIONS[52 + c as int - '0' as int] == c;
      }
    }
  }
}
