/** String operations the reply selectors and handlers rely on: lower-casing
    (`String.prototype.toLowerCase`, Python's `str.lower`), substring search
    (`includes`, Python's `in`), prefixes (`startsWith`) and splitting on line
    breaks (Python's `str.split('\n')`). */
module Text {

  /** The capitals that are lower-cased: ASCII `A`-`Z` and the Latin-1 capitals
      from U+00C0 to U+00DE, without the multiplication sign U+00D7. */
  predicate IsCapital(c: char)
  {
    'A' <= c <= 'Z' || ('\U{C0}' <= c <= '\U{DE}' && c != '\U{D7}')
  }

  /** The lower-case form of one character. Only ASCII and Latin-1 capitals are
      mapped; every other character is returned as it is. */
  function LowerChar(c: char): char
  {
    if IsCapital(c) then (c as int + 32) as char else c
  }

  /** Lower-casing, character by character: no capital is left, and every
      character that was not a capital stays as it is. */
  function Lower(s: string): (r: string)
    ensures |r| == |s|
    ensures forall i :: 0 <= i < |s| ==> !IsCapital(r[i])
    ensures forall i :: 0 <= i < |s| && !IsCapital(s[i]) ==> r[i] == s[i]
  {
    seq(|s|, i requires 0 <= i < |s| => LowerChar(s[i]))
  }

  predicate StartsWith(s: string, p: string)
  {
    |p| <= |s| && s[..|p|] == p
  }

  /** Whether `k` occurs in `s` as a contiguous substring. The empty string
      occurs everywhere; a keyword longer than the text occurs nowhere. */
  function Contains(s: string, k: string): (r: bool)
    ensures k == [] ==> r
    ensures r ==> |k| <= |s|
    decreases |s|
  {
    StartsWith(s, k) || (|s| > 0 && Contains(s[1..], k))
  }

  /** `k` occurs in `s` starting at position `i`. */
  predicate OccursAt(s: string, k: string, i: nat)
  {
    i + |k| <= |s| && s[i..i + |k|] == k
  }

  /** An occurrence of `k` at position `i` makes `Contains` hold. */
  lemma {:induction false} ContainsAt(s: string, k: string, i: nat)
    requires OccursAt(s, k, i)
    ensures Contains(s, k)
    decreases i
  {
    if i > 0 {
      assert s[1..][i - 1..i - 1 + |k|] == s[i..i + |k|];
      ContainsAt(s[1..], k, i - 1);
    }
  }

  /** When `Contains` holds, `k` occurs at a position it finds. */
  lemma {:induction false} ContainsWitness(s: string, k: string) returns (i: nat)
    requires Contains(s, k)
    ensures OccursAt(s, k, i)
    decreases |s|
  {
    if StartsWith(s, k) {
      i := 0;
    } else {
      var j := ContainsWitness(s[1..], k);
      assert s[j + 1..j + 1 + |k|] == s[1..][j..j + |k|];
      i := j + 1;
    }
  }

  /** `Contains` holds exactly when `k` occurs at some position of `s`. */
  lemma ContainsIff(s: string, k: string)
    ensures Contains(s, k) <==> exists i: nat :: OccursAt(s, k, i)
  {
    if Contains(s, k) {
      var i := ContainsWitness(s, k);
    }
    if exists i: nat :: OccursAt(s, k, i) {
      var i: nat :| OccursAt(s, k, i);
      ContainsAt(s, k, i);
    }
  }

  /** Whoever matches a keyword in any mix of cases matches it in the lower-cased
      text: a `PREÇO` anywhere in `s` is a `preço` in `Lower(s)`. */
  lemma ContainsLower(s: string, k: string)
    requires Contains(s, k)
    ensures Contains(Lower(s), Lower(k))
  {
    var i := ContainsWitness(s, k);
    LowerSlice(s, i, i + |k|);
    ContainsAt(Lower(s), Lower(k), i);
  }

  /** Lower-casing commutes with slicing. */
  lemma LowerSlice(s: string, a: nat, b: nat)
    requires a <= b <= |s|
    ensures Lower(s)[a..b] == Lower(s[a..b])
  {
  }

  /** A slice of `s` whose lower-cased form is the keyword `k` makes `Lower(s)`
      contain `k`. */
  lemma MentionsAt(s: string, k: string, i: nat)
    requires i + |k| <= |s| && Lower(s[i..i + |k|]) == k
    ensures Contains(Lower(s), k)
  {
    LowerSlice(s, i, i + |k|);
    ContainsAt(Lower(s), k, i);
  }

  /** Python's `s.split('\n')`: the pieces between line breaks, at least one. */
  function Lines(s: string): (r: seq<string>)
    ensures |r| >= 1
  {
    if |s| == 0 then [""]
    else
      var rest := Lines(s[1..]);
      if s[0] == '\n' then [""] + rest else [[s[0]] + rest[0]] + rest[1..]
  }

  /** A text without line breaks is a single line. */
  lemma {:induction false} LinesOfLine(a: string)
    requires '\n' !in a
    ensures Lines(a) == [a]
  {
    if |a| > 0 {
      LinesOfLine(a[1..]);
      assert [a[0]] + a[1..] == a;
    }
  }

  /** `ls` with `l` appended to its last line. */
  function ExtendLast(ls: seq<string>, l: string): (r: seq<string>)
    requires |ls| >= 1
    ensures |r| == |ls| && r[..|ls| - 1] == ls[..|ls| - 1] && r[|ls| - 1] == ls[|ls| - 1] + l
  {
    ls[..|ls| - 1] + [ls[|ls| - 1] + l]
  }

  /** Extending the last line commutes with putting a line in front and
      lines behind. */
  lemma ExtendCons(h: string, ls: seq<string>, a: string, t: seq<string>)
    requires |ls| >= 1
    ensures [h] + (ExtendLast(ls, a) + t) == ExtendLast([h] + ls, a) + t
  {
  }

  /** Appending text without line breaks lengthens the last line. */
  lemma LinesAppendText(x: string, l: string)
    requires '\n' !in l
    ensures Lines(x + l) == ExtendLast(Lines(x), l)
  {
    LinesOfLine(l);
    LinesConcat(x, l, l, []);
    assert ExtendLast(Lines(x), l) + [] == ExtendLast(Lines(x), l);
  }

  /** A character other than a line break, put in front of a text whose
      lines are `ExtendLast(rest, a) + tail`, joins the first of those lines. */
  lemma ConsLine(c: char, rest: seq<string>, a: string, tail: seq<string>)
    requires |rest| >= 1
    ensures var restY := ExtendLast(rest, a) + tail;
      [[c] + restY[0]] + restY[1..] == ExtendLast([[c] + rest[0]] + rest[1..], a) + tail
  {
    var first := [c] + rest[0];
    if |rest| == 1 {
      var e := ExtendLast(rest, a);
      assert e == [rest[0] + a];
      assert [c] + (rest[0] + a) == first + a;
      assert [first] + rest[1..] == [first];
      assert ExtendLast([first], a) == [first + a];
    } else {
      assert rest == [rest[0]] + rest[1..];
      ExtendCons(rest[0], rest[1..], a, tail);
      ExtendCons(first, rest[1..], a, tail);
    }
  }

  /** The step of `LinesConcat` for a leading line break. */
  lemma LinesConsBreak(x: string, y: string, a: string, tail: seq<string>)
    requires |x| > 0 && x[0] == '\n'
    requires Lines(x[1..] + y) == ExtendLast(Lines(x[1..]), a) + tail
    ensures Lines(x + y) == ExtendLast(Lines(x), a) + tail
  {
    var rest, restY := Lines(x[1..]), Lines(x[1..] + y);
    assert (x + y)[0] == x[0] && (x + y)[1..] == x[1..] + y;
    assert Lines(x + y) == [""] + restY;
    assert Lines(x) == [""] + rest;
    ExtendCons("", rest, a, tail);
  }

  /** The step of `LinesConcat` for a leading character other than a line
      break. */
  lemma LinesConsChar(x: string, y: string, a: string, tail: seq<string>)
    requires |x| > 0 && x[0] != '\n'
    requires Lines(x[1..] + y) == ExtendLast(Lines(x[1..]), a) + tail
    ensures Lines(x + y) == ExtendLast(Lines(x), a) + tail
  {
    var c, rest, restY := x[0], Lines(x[1..]), Lines(x[1..] + y);
    assert (x + y)[0] == c && (x + y)[1..] == x[1..] + y;
    assert Lines(x + y) == [[c] + restY[0]] + restY[1..];
    assert Lines(x) == [[c] + rest[0]] + rest[1..];
    ConsLine(c, rest, a, tail);
  }

  /** Splitting a concatenation: the last line of `x` joins the first line of
      `y`, and the other lines of both stay as they are. */
  lemma {:induction false} LinesConcat(x: string, y: string, a: string, tail: seq<string>)
    requires Lines(y) == [a] + tail
    ensures Lines(x + y) == ExtendLast(Lines(x), a) + tail
    decreases |x|
  {
    if |x| == 0 {
      assert x + y == y && Lines(x) == [""];
      assert [""][..0] == [] && "" + a == a;
      assert ExtendLast([""], a) == [a];
    } else {
      LinesConcat(x[1..], y, a, tail);
      if x[0] == '\n' {
        LinesConsBreak(x, y, a, tail);
      } else {
        LinesConsChar(x, y, a, tail);
      }
    }
  }

  /** Appending a line break starts a new, empty last line. */
  lemma {:induction false} LinesAppendBreak(x: string)
    ensures Lines(x + "\n") == Lines(x) + [""]
    decreases |x|
  {
    if |x| == 0 {
      assert x + "\n" == "\n";
      assert "\n"[1..] == "";
    } else {
      assert (x + "\n")[0] == x[0] && (x + "\n")[1..] == x[1..] + "\n";
      LinesAppendBreak(x[1..]);
    }
  }
}
