/**
 * String operations the client relies on: Python's `','.join` and
 * `str.split(',')`, `str(int)`, and the three regular expressions the
 * client matches (written out as predicates).
 */
module Text {

  // ---------------------------------------------------------------- comma lists

  /** Python's `','.join(xs)`. */
  function JoinComma(xs: seq<string>): string {
    if |xs| == 0 then ""
    else if |xs| == 1 then xs[0]
    else xs[0] + "," + JoinComma(xs[1..])
  }

  /** Python's `s.split(',')`: always at least one piece. */
  function SplitComma(s: string): (r: seq<string>)
    ensures |r| > 0
    decreases |s|
  {
    if |s| == 0 then [""]
    else if s[0] == ',' then [""] + SplitComma(s[1..])
    else
      var t := SplitComma(s[1..]);
      [[s[0]] + t[0]] + t[1..]
  }

  /** Splitting a string that starts with a comma-free piece. */
  lemma {:induction false} SplitCommaFreePrefix(x: string, t: string)
    requires ',' !in x
    ensures SplitComma(x + t) == [x + SplitComma(t)[0]] + SplitComma(t)[1..]
    decreases |x|
  {
    if |x| > 0 {
      SplitCommaFreePrefix(x[1..], t);
      assert (x + t)[1..] == x[1..] + t;
      assert [x[0]] + (x[1..] + SplitComma(t)[0]) == x + SplitComma(t)[0];
    } else {
      var u := SplitComma(t);
      assert x + t == t && x + u[0] == u[0];
      assert [u[0]] + u[1..] == u;
    }
  }

  /**
   * The multi-valued parameter encoding is lossless when no value contains a
   * comma and the list is not empty (an empty list is never sent).
   */
  lemma {:induction false} SplitJoinComma(xs: seq<string>)
    requires |xs| > 0
    requires forall i :: 0 <= i < |xs| ==> ',' !in xs[i]
    ensures SplitComma(JoinComma(xs)) == xs
  {
    if |xs| == 1 {
      SplitCommaFreePrefix(xs[0], "");
      assert xs[0] + "" == xs[0];
    } else {
      var rest := JoinComma(xs[1..]);
      SplitJoinComma(xs[1..]);
      assert xs[0] + "," + rest == xs[0] + ("," + rest);
      SplitCommaFreePrefix(xs[0], "," + rest);
      assert ("," + rest)[1..] == rest;
      assert SplitComma("," + rest) == [""] + xs[1..];
      assert xs[0] + "" == xs[0];
    }
  }

  /** Joining the pieces of a split gives back the string. */
  lemma {:induction false} JoinSplitComma(s: string)
    ensures JoinComma(SplitComma(s)) == s
    decreases |s|
  {
    if |s| > 0 {
      JoinSplitComma(s[1..]);
      var t := SplitComma(s[1..]);
      if s[0] == ',' {
        assert ([""] + t)[1..] == t;
        assert s == [s[0]] + s[1..];
      } else {
        var r := [[s[0]] + t[0]] + t[1..];
        assert r[1..] == t[1..];
        if |t| > 1 {
          assert JoinComma(t) == t[0] + "," + JoinComma(t[1..]);
        }
        assert s == [s[0]] + s[1..];
      }
    }
  }

  // ---------------------------------------------------------------- flag lists

  /** The names whose flag is set, in their original order: an include list built by successive appends. */
  function Selected(names: seq<string>, on: seq<bool>): (r: seq<string>)
    requires |names| == |on|
    ensures |r| <= |names|
  {
    if |names| == 0 then []
    else Selected(names[..|names| - 1], on[..|on| - 1]) + (if on[|on| - 1] then [names[|names| - 1]] else [])
  }

  /** Selecting one more prefix element appends that element when its flag is set. */
  lemma SelectedPrefixStep(names: seq<string>, on: seq<bool>, k: nat)
    requires |names| == |on| && k < |names|
    ensures Selected(names[..k + 1], on[..k + 1])
              == Selected(names[..k], on[..k]) + (if on[k] then [names[k]] else [])
  {
    assert names[..k + 1][..k] == names[..k] && on[..k + 1][..k] == on[..k];
  }

  /** No name occurs twice. */
  predicate Distinct(xs: seq<string>) {
    forall i, j :: 0 <= i < j < |xs| ==> xs[i] != xs[j]
  }

  /** Only names from the list are ever selected. */
  lemma {:induction false} SelectedWithin(names: seq<string>, on: seq<bool>)
    requires |names| == |on|
    ensures forall x :: x in Selected(names, on) ==> x in names
  {
    if |names| > 0 {
      SelectedWithin(names[..|names| - 1], on[..|on| - 1]);
    }
  }

  /** A name is selected exactly when its own flag is set. */
  lemma {:induction false} SelectedMembership(names: seq<string>, on: seq<bool>, i: int)
    requires |names| == |on| && Distinct(names) && 0 <= i < |names|
    ensures names[i] in Selected(names, on) <==> on[i]
  {
    var n := |names| - 1;
    var init, initOn := names[..n], on[..n];
    SelectedWithin(init, initOn);
    if i < n {
      SelectedMembership(init, initOn, i);
      assert names[i] != names[n];
    } else {
      assert names[n] !in init;
    }
  }

  /** Selecting from a list without repetitions gives a list without repetitions. */
  lemma {:induction false} SelectedDistinct(names: seq<string>, on: seq<bool>)
    requires |names| == |on| && Distinct(names)
    ensures Distinct(Selected(names, on))
  {
    if |names| > 0 {
      var n := |names| - 1;
      var rest := Selected(names[..n], on[..n]);
      SelectedDistinct(names[..n], on[..n]);
      SelectedWithin(names[..n], on[..n]);
      if on[n] {
        assert names[n] !in names[..n];
        var r := rest + [names[n]];
        forall i, j | 0 <= i < j < |r| ensures r[i] != r[j] {
          if j < |rest| {
            assert r[i] == rest[i] && r[j] == rest[j];
          } else {
            assert r[i] == rest[i] && rest[i] in names[..n];
          }
        }
      } else {
        assert Selected(names, on) == rest;
      }
    }
  }

  /** `if x not in xs: xs.append(x)`. */
  function AddOnce(xs: seq<string>, x: string): (r: seq<string>)
    ensures x in r
    ensures forall y :: y in xs ==> y in r
  {
    if x in xs then xs else xs + [x]
  }

  /** Adding a name a second time changes nothing, and the list grows by at most one. */
  lemma AddOnceIdempotent(xs: seq<string>, x: string)
    ensures AddOnce(AddOnce(xs, x), x) == AddOnce(xs, x)
    ensures |xs| <= |AddOnce(xs, x)| <= |xs| + 1
    ensures AddOnce(xs, x)[..|xs|] == xs
  {
  }

  // ---------------------------------------------------------------- decimals

  function DigitChar(d: nat): char
    requires d < 10
  {
    "0123456789"[d]
  }

  predicate IsDigit(c: char) {
    '0' <= c <= '9'
  }

  /** Python's `str(n)` for a non-negative integer. */
  function NatToString(n: nat): (s: string)
    ensures |s| > 0
    ensures forall i :: 0 <= i < |s| ==> IsDigit(s[i])
  {
    if n < 10 then [DigitChar(n)] else NatToString(n / 10) + [DigitChar(n % 10)]
  }

  /** Python's `str(n)` for any integer. */
  function IntToString(n: int): string {
    if n < 0 then "-" + NatToString(-n) else NatToString(n)
  }

  /** Python's `int(s)` for a string of decimal digits. */
  function ParseNat(s: string): nat
    requires forall i :: 0 <= i < |s| ==> IsDigit(s[i])
  {
    if |s| == 0 then 0
    else
      assert IsDigit(s[|s| - 1]);
      ParseNat(s[..|s| - 1]) * 10 + (s[|s| - 1] as int - '0' as int)
  }

  /** The decimal rendering of a status code reads back as that code. */
  lemma {:induction false} ParseNatToString(n: nat)
    ensures ParseNat(NatToString(n)) == n
  {
    var s := NatToString(n);
    if n >= 10 {
      ParseNatToString(n / 10);
      assert s[..|s| - 1] == NatToString(n / 10);
    }
  }

  // ---------------------------------------------------------------- patterns

  predicate StartsWith(s: string, p: string) {
    |p| <= |s| && s[..|p|] == p
  }

  /** What Python's `.` matches: any character but a newline. */
  predicate NoNewline(s: string) {
    forall i :: 0 <= i < |s| ==> s[i] != '\n'
  }

  const JsonMediaType: string := "application/json"
  const JsonCharsetPrefix: string := "application/json;charset="
  const TextPrefix: string := "text/"

  /** The part of `^application/json(;charset=.+)?$` that precedes `$`. */
  predicate JsonMediaTypeBody(s: string) {
    s == JsonMediaType
    || (StartsWith(s, JsonCharsetPrefix) && |s| > |JsonCharsetPrefix| && NoNewline(s[|JsonCharsetPrefix|..]))
  }

  /** The part of `^text/.+(;charset=.+)?$` that precedes `$`. */
  predicate TextMediaTypeBody(s: string) {
    StartsWith(s, TextPrefix) && |s| > |TextPrefix| && NoNewline(s[|TextPrefix|..])
  }

  /** Python's `$` also matches just before one trailing newline. */
  predicate MatchesToEnd(body: string -> bool, s: string) {
    body(s) || (|s| > 0 && s[|s| - 1] == '\n' && body(s[..|s| - 1]))
  }

  /** `re.search('^application/json(;charset=.+)?$', s)` succeeds. */
  predicate IsJsonContentType(s: string) {
    MatchesToEnd(JsonMediaTypeBody, s)
  }

  /** `re.search('^text/.+(;charset=.+)?$', s)` succeeds. */
  predicate IsTextContentType(s: string) {
    MatchesToEnd(TextMediaTypeBody, s)
  }

  /** `re.search('^[^:]+$', s)` succeeds: a non-empty name without a namespace prefix. */
  predicate IsBareName(s: string) {
    |s| > 0 && ':' !in s
  }

  /** The first character tells the two media-type patterns apart. */
  lemma ContentTypeFirstChar(s: string)
    ensures IsJsonContentType(s) ==> |s| > 0 && s[0] == 'a'
    ensures IsTextContentType(s) ==> |s| > 0 && s[0] == 't'
  {
    if JsonMediaTypeBody(s) && s != JsonMediaType {
      assert s[..|JsonCharsetPrefix|][0] == 'a';
    }
    if |s| > 0 && JsonMediaTypeBody(s[..|s| - 1]) && s[..|s| - 1] != JsonMediaType {
      assert s[..|s| - 1][..|JsonCharsetPrefix|][0] == 'a';
    }
    if TextMediaTypeBody(s) {
      assert s[..5][0] == 't';
    }
    if |s| > 0 && TextMediaTypeBody(s[..|s| - 1]) {
      assert s[..|s| - 1][..5][0] == 't';
    }
  }

  /** A JSON content type is never also a text one, so the dispatch order does not matter. */
  lemma JsonIsNotText(s: string)
    requires IsJsonContentType(s)
    ensures !IsTextContentType(s)
  {
    ContentTypeFirstChar(s);
  }
}
