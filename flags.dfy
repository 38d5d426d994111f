/**
 * src/flags.ts: feature flags come from a comma-separated environment
 * variable and a `flags` query parameter; each is split on `,`, trimmed and
 * stripped of empty items, and the flag set is the union of both lists.
 */
module Flags {
  import opened Js

  /**
   * The characters `String.prototype.trim` removes: the ECMAScript
   * WhiteSpace (tab, vertical tab, form feed, space, no-break space, the
   * byte order mark and the Unicode space separators) and LineTerminator
   * (line feed, carriage return, line and paragraph separators) code points.
   */
  predicate IsSpace(c: char)
  {
    || c == '\t' || c == '\U{000B}' || c == '\U{000C}' || c == ' ' || c == '\U{00A0}' || c == '\U{FEFF}'
    || c == '\U{1680}' || ('\U{2000}' <= c <= '\U{200A}') || c == '\U{202F}' || c == '\U{205F}' || c == '\U{3000}'
    || c == '\n' || c == '\r' || c == '\U{2028}' || c == '\U{2029}'
  }

  /** Index of the first `sep` in `s`, which must contain one. */
  function IndexOf(s: string, sep: char): (k: nat)
    requires sep in s
    ensures k < |s| && s[k] == sep && sep !in s[..k]
  {
    if s[0] == sep then 0
    else
      assert sep in s[1..] by { assert s == [s[0]] + s[1..]; }
      var k := IndexOf(s[1..], sep);
      assert s[..k + 1] == [s[0]] + s[1..][..k];
      k + 1
  }

  /** `s.split(sep)` for a one-character separator: there is always at least one part. */
  function Split(s: string, sep: char): (r: seq<string>)
    ensures |r| >= 1
    ensures forall i :: 0 <= i < |r| ==> sep !in r[i]
    decreases |s|
  {
    if sep !in s then [s]
    else
      var k := IndexOf(s, sep);
      [s[..k]] + Split(s[k + 1..], sep)
  }

  /** `parts.join(sep)`. */
  function Join(parts: seq<string>, sep: char): string
    requires |parts| >= 1
  {
    if |parts| == 1 then parts[0] else parts[0] + [sep] + Join(parts[1..], sep)
  }

  /** Splitting and joining again gives back the string. */
  lemma {:induction false} JoinSplit(s: string, sep: char)
    ensures Join(Split(s, sep), sep) == s
    decreases |s|
  {
    if sep in s {
      var k := IndexOf(s, sep);
      var rest := s[k + 1..];
      var parts := Split(s, sep);
      assert parts == [s[..k]] + Split(rest, sep);
      assert parts[0] == s[..k] && parts[1..] == Split(rest, sep);
      JoinSplit(rest, sep);
      assert Join(parts, sep) == s[..k] + [sep] + rest;
      assert s == s[..k] + [sep] + rest;
    } else {
      assert Split(s, sep) == [s];
    }
  }

  /** Joining parts free of the separator and splitting again gives back the parts. */
  lemma {:induction false} SplitJoin(parts: seq<string>, sep: char)
    requires |parts| >= 1
    requires forall i :: 0 <= i < |parts| ==> sep !in parts[i]
    ensures Split(Join(parts, sep), sep) == parts
    decreases |parts|
  {
    if |parts| > 1 {
      var s := Join(parts, sep);
      var p := parts[0];
      assert s == p + [sep] + Join(parts[1..], sep);
      assert s[|p|] == sep && s[..|p|] == p;
      assert sep in s;
      var k := IndexOf(s, sep);
      assert forall i :: 0 <= i < |p| ==> s[i] == p[i];
      assert forall i :: 0 <= i < k ==> s[..k][i] == s[i];
      assert k == |p|;
      assert s[k + 1..] == Join(parts[1..], sep);
      SplitJoin(parts[1..], sep);
    } else {
      assert Join(parts, sep) == parts[0];
    }
  }

  /** Length of the leading whitespace run. */
  function LeadingSpace(s: string): (n: nat)
    ensures n <= |s|
    ensures forall i :: 0 <= i < n ==> IsSpace(s[i])
    ensures n < |s| ==> !IsSpace(s[n])
  {
    if s == [] || !IsSpace(s[0]) then 0
    else
      var n := LeadingSpace(s[1..]);
      assert forall i :: 1 <= i < n + 1 ==> s[i] == s[1..][i - 1];
      n + 1
  }

  /** Length of the trailing whitespace run. */
  function TrailingSpace(s: string): (n: nat)
    ensures n <= |s|
    ensures forall i :: |s| - n <= i < |s| ==> IsSpace(s[i])
    ensures n < |s| ==> !IsSpace(s[|s| - n - 1])
  {
    if s == [] || !IsSpace(s[|s| - 1]) then 0
    else
      var n := TrailingSpace(s[..|s| - 1]);
      assert forall i :: |s| - 1 - n <= i < |s| - 1 ==> s[i] == s[..|s| - 1][i];
      n + 1
  }

  /**
   * `s.trim()`: the slice of `s` without its leading and trailing
   * whitespace; the result neither starts nor ends with whitespace, and
   * only whitespace lies before and after it in `s`.
   */
  function Trim(s: string): (r: string)
    ensures |r| <= |s|
    ensures r != [] ==> !IsSpace(r[0]) && !IsSpace(r[|r| - 1])
    ensures (forall i :: 0 <= i < |s| ==> !IsSpace(s[i])) ==> r == s
    ensures var a := LeadingSpace(s);
              a + |r| <= |s| && r == s[a..a + |r|] &&
              (forall i :: 0 <= i < a ==> IsSpace(s[i])) && (forall i :: a + |r| <= i < |s| ==> IsSpace(s[i]))
  {
    var a := LeadingSpace(s);
    if a == |s| then
      var r: string := [];
      assert 0 <= a && a + |r| <= |s| && r == s[a..a + |r|] && (forall i :: 0 <= i < a ==> IsSpace(s[i]));
      r
    else
      var b := TrailingSpace(s);
      assert !IsSpace(s[a]);
      var r := s[a..|s| - b];
      assert a + |r| == |s| - b && r == s[a..a + |r|];
      assert 0 <= a && a + |r| <= |s| && (forall i :: 0 <= i < a ==> IsSpace(s[i])) &&
             (forall i :: a + |r| <= i < |s| ==> IsSpace(s[i]));
      r
  }

  /** `.filter(Boolean)` on strings: the empty string is falsy. */
  predicate NonEmpty(s: string)
  {
    s != ""
  }

  /** The items of one source string: split, trimmed, empty ones dropped. */
  function Items(raw: Option<string>): (r: seq<string>)
    ensures forall x :: x in r ==> x != "" && ',' !in x && Trim(x) == x
  {
    var parts := Split(OrStr(raw, ""), ',');
    var trimmed := TrimAll(parts);
    ItemsShape(parts, trimmed);
    Filter(trimmed, NonEmpty)
  }

  /** `.map(s => s.trim())`. */
  function TrimAll(parts: seq<string>): (r: seq<string>)
    ensures |r| == |parts| && forall i :: 0 <= i < |parts| ==> r[i] == Trim(parts[i])
  {
    seq(|parts|, i requires 0 <= i < |parts| => Trim(parts[i]))
  }

  lemma ItemsShape(parts: seq<string>, trimmed: seq<string>)
    requires forall i :: 0 <= i < |parts| ==> ',' !in parts[i]
    requires |trimmed| == |parts| && forall i :: 0 <= i < |parts| ==> trimmed[i] == Trim(parts[i])
    ensures forall x :: x in Filter(trimmed, NonEmpty) ==> x != "" && ',' !in x && Trim(x) == x
  {
    forall x | x in Filter(trimmed, NonEmpty)
      ensures x != "" && ',' !in x && Trim(x) == x
    {
      FilterMembership(trimmed, NonEmpty, x);
      var i :| 0 <= i < |parts| && trimmed[i] == x;
      TrimSlice(parts[i]);
      TrimIdempotent(parts[i]);
    }
  }

  /** Every character of the trimmed string occurs in the original. */
  lemma TrimSlice(s: string)
    ensures forall c :: c in Trim(s) ==> c in s
  {
  }

  /** Surrounding whitespace goes and inner whitespace stays. */
  lemma TrimExample()
    ensures Trim(" a b\t") == "a b"
  {
    var s := " a b\t";
    assert IsSpace(s[0]) && s[1..][0] == 'a' && !IsSpace('a');
    assert LeadingSpace(s) == 1;
    assert IsSpace(s[4]) && s[..4][3] == 'b' && !IsSpace('b');
    assert TrailingSpace(s) == 1;
    assert s[1..4] == "a b";
  }

  lemma TrimIdempotent(s: string)
    ensures Trim(Trim(s)) == Trim(s)
  {
    var r := Trim(s);
    if r != [] {
      assert LeadingSpace(r) == 0;
      assert TrailingSpace(r) == 0;
    }
  }

  /** `readFromUrl`: nothing without a `window`, else the items of the `flags` parameter. */
  function ReadFromUrl(hasWindow: bool, flagsParam: Option<string>): (r: seq<string>)
    ensures !hasWindow ==> r == []
  {
    if !hasWindow then [] else Items(flagsParam)
  }

  /** `readFromEnv`: the items of `NEXT_PUBLIC_FEATURE_FLAGS`. */
  function ReadFromEnv(env: Option<string>): (r: seq<string>)
    ensures forall x :: x in r ==> x != "" && ',' !in x && Trim(x) == x
    ensures env.None? || env == Some("") ==> r == []
  {
    NoFlagsFromNothing();
    Items(env)
  }

  /** The flag set built once from both lists. */
  function FlagSet(envItems: seq<string>, urlItems: seq<string>): (r: set<string>)
    ensures forall f :: f in r <==> f in envItems || f in urlItems
  {
    set f | f in envItems + urlItems
  }

  /** `hasFlag(f)`. */
  predicate HasFlag(envItems: seq<string>, urlItems: seq<string>, f: string): (r: bool)
    ensures r <==> f in envItems || f in urlItems
  {
    f in FlagSet(envItems, urlItems)
  }

  /**
   * A list of clean flag names written comma-separated is read back as that
   * very list, from either source.
   */
  lemma ItemsRoundTrip(fs: seq<string>)
    requires |fs| >= 1
    requires forall i :: 0 <= i < |fs| ==> fs[i] != "" && ',' !in fs[i] &&
                                           forall j :: 0 <= j < |fs[i]| ==> !IsSpace(fs[i][j])
    ensures Items(Some(Join(fs, ','))) == fs
  {
    var s := Join(fs, ',');
    assert OrStr(Some(s), "") == s;
    SplitJoin(fs, ',');
    assert TrimAll(fs) == fs;
    FilterAll(fs, NonEmpty);
  }

  /**
   * Comma-separated names read back as those names trimmed, in order, with
   * the empty ones dropped.
   */
  lemma ItemsOfJoin(parts: seq<string>)
    requires |parts| >= 1
    requires forall i :: 0 <= i < |parts| ==> ',' !in parts[i]
    ensures Items(Some(Join(parts, ','))) == Filter(TrimAll(parts), NonEmpty)
  {
    assert OrStr(Some(Join(parts, ',')), "") == Join(parts, ',');
    SplitJoin(parts, ',');
  }

  /** Whitespace around the names and an empty item are dropped. */
  lemma ItemsExample()
    ensures Items(Some(" a , ,b")) == ["a", "b"]
  {
    var parts := [" a ", " ", "b"];
    ExampleJoin(parts);
    ItemsOfJoin(parts);
    ExampleTrims(parts);
    ExampleFilter();
  }

  lemma ExampleJoin(parts: seq<string>)
    requires parts == [" a ", " ", "b"]
    ensures Join(parts, ',') == " a , ,b" && ',' !in parts[0] && ',' !in parts[1] && ',' !in parts[2]
  {
    assert parts[1..] == [" ", "b"] && parts[1..][1..] == ["b"];
    assert Join(["b"], ',') == "b";
    assert Join([" ", "b"], ',') == " ,b";
    assert Join(parts, ',') == " a " + [','] + " ,b";
  }

  lemma ExampleFilter()
    ensures Filter(["a", "", "b"], NonEmpty) == ["a", "b"]
  {
    assert ["a", "", "b"][1..] == ["", "b"] && ["", "b"][1..] == ["b"] && ["b"][1..] == [];
  }

  lemma ExampleTrims(parts: seq<string>)
    requires parts == [" a ", " ", "b"]
    ensures TrimAll(parts) == ["a", "", "b"]
  {
    TrimSpacedName();
    assert Trim(" ") == "" by {
      assert LeadingSpace(" ") == 1 by { assert " "[1..] == ""; }
    }
    assert Trim("b") == "b" by {
      assert forall i :: 0 <= i < |"b"| ==> !IsSpace("b"[i]);
    }
  }

  lemma TrimSpacedName()
    ensures Trim(" a ") == "a"
  {
    var s := " a ";
    assert IsSpace(s[0]) && s[1..][0] == 'a' && !IsSpace('a');
    assert LeadingSpace(s) == 1;
    assert IsSpace(s[2]) && s[..2][1] == 'a';
    assert TrailingSpace(s) == 1;
    assert s[1..2] == "a";
  }

  /** An unset or empty variable yields no flags. */
  lemma NoFlagsFromNothing()
    ensures Items(None) == [] && Items(Some("")) == []
  {
    assert Split("", ',') == [""];
    assert Trim("") == "";
  }

  /** `hasFlag` ignores order and duplicates within and across the two lists. */
  lemma HasFlagIgnoresOrder(env1: seq<string>, url1: seq<string>, env2: seq<string>, url2: seq<string>, f: string)
    requires (set x | x in env1 + url1) == (set x | x in env2 + url2)
    ensures HasFlag(env1, url1, f) <==> HasFlag(env2, url2, f)
  {
  }
}
