/**
 * The two Python string operations that the router's idempotency checks rest on:
 * `str.strip()` (applied by call_popen to every command's output) and
 * `str.splitlines()` (used to turn a listing into exact lines).
 */
module Text {

  /** Python's `str.isspace` for one character. */
  predicate IsSpace(c: char) {
    var n := c as int;
    || (9 <= n <= 13) || (28 <= n <= 32) || n == 0x85 || n == 0xA0 || n == 0x1680
    || (0x2000 <= n <= 0x200A) || n == 0x2028 || n == 0x2029 || n == 0x202F
    || n == 0x205F || n == 0x3000
  }

  /** The characters at which `str.splitlines` ends a line (`\r\n` counts as one break). */
  predicate IsLineBreak(c: char) {
    var n := c as int;
    (10 <= n <= 13) || (28 <= n <= 30) || n == 0x85 || n == 0x2028 || n == 0x2029
  }

  predicate NoLineBreak(s: string) {
    forall i :: 0 <= i < |s| ==> !IsLineBreak(s[i])
  }

  /** A non-empty name without any whitespace, such as an interface or bridge name. */
  predicate IsToken(s: string) {
    |s| > 0 && forall i :: 0 <= i < |s| ==> !IsSpace(s[i])
  }

  /** Neither end of `s` is whitespace. */
  predicate Trimmed(s: string) {
    s == [] || (!IsSpace(s[0]) && !IsSpace(s[|s| - 1]))
  }

  /** The index of the first character of `s` at or after `i` that is not whitespace, or `|s|`. */
  function SpaceEnd(s: string, i: nat): (k: nat)
    requires i <= |s|
    ensures i <= k <= |s| && forall j :: i <= j < k ==> IsSpace(s[j])
    ensures k < |s| ==> !IsSpace(s[k])
    decreases |s| - i
  {
    if i == |s| || !IsSpace(s[i]) then i else SpaceEnd(s, i + 1)
  }

  /** Where the run of whitespace that ends at `j` starts, looking no further back than `lo`. */
  function SpaceStart(s: string, lo: nat, j: nat): (k: nat)
    requires lo <= j <= |s|
    ensures lo <= k <= j && forall i :: k <= i < j ==> IsSpace(s[i])
    ensures k > lo ==> !IsSpace(s[k - 1])
    decreases j - lo
  {
    if j == lo || !IsSpace(s[j - 1]) then j else SpaceStart(s, lo, j - 1)
  }

  /** `s.strip()`: `s` without the whitespace at either end. */
  function Strip(s: string): (r: string)
    ensures Trimmed(r) && |r| <= |s|
  {
    var a := SpaceEnd(s, 0);
    s[a..SpaceStart(s, a, |s|)]
  }

  /** What `strip` removes is whitespace, and only from the two ends: the result is a slice of `s`. */
  lemma StripRemovesEnds(s: string) returns (k: nat)
    ensures var r := Strip(s);
      && k + |r| <= |s| && r == s[k..k + |r|]
      && (forall i :: 0 <= i < k ==> IsSpace(s[i]))
      && (forall i :: k + |r| <= i < |s| ==> IsSpace(s[i]))
  {
    k := SpaceEnd(s, 0);
  }

  lemma StripTrimmed(s: string)
    requires Trimmed(s)
    ensures Strip(s) == s
  {
    if s != [] {
      assert SpaceEnd(s, 0) == 0;
      assert SpaceStart(s, 0, |s|) == |s|;
    }
  }

  /** Stripping twice is stripping once. */
  lemma StripIdempotent(s: string)
    ensures Strip(Strip(s)) == Strip(s)
  {
    StripTrimmed(Strip(s));
  }

  /** Index of the first line break in `s` at or after `i`, or `|s|` when there is none. */
  function LineEndFrom(s: string, i: nat): (k: nat)
    requires i <= |s|
    ensures i <= k <= |s| && forall j :: i <= j < k ==> !IsLineBreak(s[j])
    ensures k < |s| ==> IsLineBreak(s[k])
    decreases |s| - i
  {
    if i == |s| || IsLineBreak(s[i]) then i else LineEndFrom(s, i + 1)
  }

  /** Index of the first line break in `s`, or `|s|` when there is none. */
  function LineEnd(s: string): (k: nat)
    ensures k <= |s| && NoLineBreak(s[..k])
    ensures k < |s| ==> IsLineBreak(s[k])
  {
    LineEndFrom(s, 0)
  }

  /** The width of the line break at `k`: two for `\r\n`, otherwise one. */
  function BreakWidth(s: string, k: nat): nat
    requires k < |s|
  {
    if s[k] == '\r' && k + 1 < |s| && s[k + 1] == '\n' then 2 else 1
  }

  /** Python's `s.splitlines()`: the lines of `s`, without their breaks and without a final empty line. */
  function SplitLines(s: string): (lines: seq<string>)
    ensures forall i :: 0 <= i < |lines| ==> NoLineBreak(lines[i])
    ensures s == [] <==> lines == []
    decreases |s|
  {
    if s == [] then []
    else
      var k := LineEnd(s);
      if k == |s| then [s] else [s[..k]] + SplitLines(s[k + BreakWidth(s, k)..])
  }

  /** A listing as a command-line tool prints it: every name followed by a newline. */
  function Lines(names: seq<string>): string {
    if names == [] then "" else names[0] + "\n" + Lines(names[1..])
  }

  lemma {:induction false} LineEndFromAt(s: string, i: nat, k: nat)
    requires i <= k <= |s| && forall j :: i <= j < k ==> !IsLineBreak(s[j])
    requires k < |s| ==> IsLineBreak(s[k])
    ensures LineEndFrom(s, i) == k
    decreases k - i
  {
    if i < k {
      LineEndFromAt(s, i + 1, k);
    }
  }

  lemma LineEndAt(s: string, k: nat)
    requires k <= |s| && NoLineBreak(s[..k])
    requires k < |s| ==> IsLineBreak(s[k])
    ensures LineEnd(s) == k
  {
    assert forall j :: 0 <= j < k ==> s[j] == s[..k][j];
    LineEndFromAt(s, 0, k);
  }

  /** The first line of `s` and the rest, when `s` has a line break. */
  lemma SplitAt(s: string, k: nat)
    requires k < |s| && LineEnd(s) == k
    ensures SplitLines(s) == [s[..k]] + SplitLines(s[k + BreakWidth(s, k)..])
  {
  }

  /** A text with no line break is a single line. */
  lemma SingleLine(t: string)
    requires t != [] && LineEnd(t) == |t|
    ensures SplitLines(t) == [t]
  {
  }

  /** ... and so is that text followed by one newline. */
  lemma SingleLineNewline(t: string)
    requires t != [] && LineEnd(t) == |t|
    ensures SplitLines(t + "\n") == [t]
  {
    var s := t + "\n";
    assert s[..|t|] == t;
    LineEndAt(s, |t|);
    assert BreakWidth(s, |t|) == 1;
    assert s[|t| + 1..] == [];
    SplitAt(s, |t|);
  }

  /** A listing of names without line breaks splits back into exactly those names. */
  lemma {:induction false} SplitListing(names: seq<string>)
    requires forall i :: 0 <= i < |names| ==> NoLineBreak(names[i])
    ensures SplitLines(Lines(names)) == names
  {
    if names != [] {
      var a := names[0];
      var s := Lines(names);
      assert s == a + "\n" + Lines(names[1..]);
      assert s[..|a|] == a;
      LineEndAt(s, |a|);
      assert BreakWidth(s, |a|) == 1;
      assert s[|a| + 1..] == Lines(names[1..]);
      SplitListing(names[1..]);
    }
  }

  /** One final newline after a line that does not end in a break adds no line. */
  lemma {:induction false} SplitFinalNewline(t: string)
    requires t != [] && !IsLineBreak(t[|t| - 1])
    ensures SplitLines(t + "\n") == SplitLines(t)
    decreases |t|
  {
    var s := t + "\n";
    var k := LineEnd(t);
    if k == |t| {
      SingleLine(t);
      SingleLineNewline(t);
    } else {
      var rest := FirstLineNewline(t, k);
      SplitFinalNewline(rest);
      calc {
        SplitLines(s);
        { SplitAt(s, k); }
        [s[..k]] + SplitLines(rest + "\n");
        [t[..k]] + SplitLines(rest);
        { SplitAt(t, k); }
        SplitLines(t);
      }
    }
  }

  /** A newline after a text that has a line break leaves its first line and break where they were. */
  lemma FirstLineNewline(t: string, k: nat) returns (rest: string)
    requires t != [] && !IsLineBreak(t[|t| - 1]) && k < |t| && LineEnd(t) == k
    ensures var s := t + "\n";
      && LineEnd(s) == k && k + BreakWidth(t, k) < |t| && BreakWidth(s, k) == BreakWidth(t, k)
      && rest == t[k + BreakWidth(t, k)..] && s[k + BreakWidth(s, k)..] == rest + "\n"
      && s[..k] == t[..k] && rest != [] && !IsLineBreak(rest[|rest| - 1])
  {
    var s := t + "\n";
    assert s[..k] == t[..k];
    LineEndAt(s, k);
    assert k + 1 < |t|;
    var w := BreakWidth(t, k);
    rest := t[k + w..];
    assert s[k + w..] == rest + "\n";
    assert rest[|rest| - 1] == t[|t| - 1];
  }

  lemma {:induction false} ListingEnds(names: seq<string>)
    requires names != [] && names[|names| - 1] != []
    ensures var s := Lines(names);
      |s| >= 2 && s[|s| - 1] == '\n' && s[|s| - 2] == names[|names| - 1][|names[|names| - 1]| - 1]
  {
    if |names| > 1 {
      ListingEnds(names[1..]);
    } else {
      assert names[1..] == [];
      assert Lines(names) == names[0] + "\n";
    }
  }

  lemma TokenHasNoBreak(s: string)
    requires IsToken(s)
    ensures NoLineBreak(s) && Trimmed(s)
  {
  }

  /** A non-empty listing of tokens is its stripped form plus one newline. */
  lemma {:induction false} StripListing(names: seq<string>) returns (j: string)
    requires names != [] && forall i :: 0 <= i < |names| ==> IsToken(names[i])
    ensures Lines(names) == j + "\n" && Strip(Lines(names)) == j
    ensures j != [] && !IsLineBreak(j[|j| - 1])
  {
    var s := Lines(names);
    ListingEnds(names);
    var first, last := names[0], names[|names| - 1];
    TokenHasNoBreak(first);
    TokenHasNoBreak(last);
    j := s[..|s| - 1];
    assert s == j + "\n";
    assert j[0] == first[0];
    assert j[|j| - 1] == last[|last| - 1];
    assert Trimmed(j);
    assert SpaceEnd(s, 0) == 0;
    assert SpaceStart(s, 0, |s| - 1) == |s| - 1;
    assert SpaceStart(s, 0, |s|) == |s| - 1;
  }

  lemma SplitStripped(s: string, j: string)
    requires s == j + "\n" && Strip(s) == j
    requires SplitLines(j + "\n") == SplitLines(j)
    ensures SplitLines(Strip(s)) == SplitLines(s)
  {
  }

  /**
   * What a caller gets back from a listing after call_popen has stripped it and the caller has
   * split it: exactly the listed names, when every name is a token.
   */
  lemma {:induction false} ListingRoundTrip(names: seq<string>)
    requires forall i :: 0 <= i < |names| ==> IsToken(names[i])
    ensures SplitLines(Strip(Lines(names))) == names
  {
    forall i | 0 <= i < |names| ensures NoLineBreak(names[i]) {
      TokenHasNoBreak(names[i]);
    }
    SplitListing(names);
    if names != [] {
      var j := StripListing(names);
      SplitFinalNewline(j);
      SplitStripped(Lines(names), j);
    }
  }

  /** Membership in a stripped, split listing is exact-name membership. */
  lemma ListedExactly(names: seq<string>, x: string)
    requires forall i :: 0 <= i < |names| ==> IsToken(names[i])
    ensures x in SplitLines(Strip(Lines(names))) <==> x in names
  {
    ListingRoundTrip(names);
  }
}
