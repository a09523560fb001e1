/** The few string helpers the gateway shares. */
module Texts {

  predicate IsSpace(c: char) {
    c == ' ' || '\t' <= c <= '\r'
  }

  predicate AllBy<T>(s: seq<T>, space: T -> bool) {
    forall i :: 0 <= i < |s| ==> space(s[i])
  }

  /** The sequence without the space around it. */
  function TrimBy<T>(s: seq<T>, space: T -> bool): (r: seq<T>)
    ensures |r| <= |s|
    ensures r != [] ==> !space(r[0]) && !space(r[|r| - 1])
  {
    if s == [] then []
    else if space(s[0]) then TrimBy(s[1..], space)
    else if space(s[|s| - 1]) then TrimBy(s[..|s| - 1], space)
    else s
  }

  lemma {:induction false} TrimByFront<T>(before: seq<T>, s: seq<T>, space: T -> bool)
    requires AllBy(before, space)
    ensures TrimBy(before + s, space) == TrimBy(s, space)
  {
    if before == [] {
      assert before + s == s;
    } else {
      assert (before + s)[0] == before[0] && (before + s)[1..] == before[1..] + s;
      TrimByFront(before[1..], s, space);
    }
  }

  lemma {:induction false} TrimByBack<T>(s: seq<T>, after: seq<T>, space: T -> bool)
    requires AllBy(after, space)
    requires s != [] && !space(s[0]) && !space(s[|s| - 1])
    ensures TrimBy(s + after, space) == s
  {
    if after == [] {
      assert s + after == s;
    } else {
      var n := |after| - 1;
      assert (s + after)[0] == s[0] && (s + after)[|s| + n] == after[n] && (s + after)[..|s| + n] == s + after[..n];
      TrimByBack(s, after[..n], space);
    }
  }

  /** Trimming takes away exactly the space before and after what starts and ends without it. */
  lemma {:induction false} TrimByCuts<T>(before: seq<T>, s: seq<T>, after: seq<T>, space: T -> bool)
    requires AllBy(before, space)
    requires AllBy(after, space)
    requires s != [] ==> !space(s[0]) && !space(s[|s| - 1])
    ensures TrimBy(before + s + after, space) == s
  {
    hide TrimBy;
    assert before + s + after == before + (s + after);
    TrimByFront(before, s + after, space);
    if s == [] {
      assert s + after == after;
      TrimByEmpty(after, space);
    } else {
      TrimByBack(s, after, space);
    }
  }

  lemma {:induction false} AllByMore<T>(s: seq<T>, x: T, space: T -> bool)
    requires AllBy(s, space) && space(x)
    ensures AllBy([x] + s, space) && AllBy(s + [x], space)
  {
  }

  /** What trimming takes away is space before and after. */
  lemma {:induction false} TrimByParts<T>(s: seq<T>, space: T -> bool) returns (before: seq<T>, after: seq<T>)
    ensures s == before + TrimBy(s, space) + after && AllBy(before, space) && AllBy(after, space)
  {
    before, after := [], [];
    if s != [] {
      var n := |s| - 1;
      if space(s[0]) {
        assert s == [s[0]] + s[1..] && TrimBy(s, space) == TrimBy(s[1..], space);
        hide TrimBy, AllBy;
        before, after := TrimByParts(s[1..], space);
        AllByMore(before, s[0], space);
        before := [s[0]] + before;
      } else if space(s[n]) {
        assert s == s[..n] + [s[n]] && TrimBy(s, space) == TrimBy(s[..n], space);
        hide TrimBy, AllBy;
        before, after := TrimByParts(s[..n], space);
        AllByMore(after, s[n], space);
        after := after + [s[n]];
      }
    }
  }

  /** Nothing is left exactly when there is nothing but space. */
  lemma {:induction false} TrimByEmpty<T>(s: seq<T>, space: T -> bool)
    ensures TrimBy(s, space) == [] <==> AllBy(s, space)
  {
    if s != [] {
      if space(s[0]) {
        TrimByEmpty(s[1..], space);
        assert forall i :: 0 < i < |s| ==> s[i] == s[1..][i - 1];
      } else if space(s[|s| - 1]) {
        TrimByEmpty(s[..|s| - 1], space);
        assert s[..|s| - 1][0] == s[0];
      }
    }
  }

  /** The text without the white space around it. */
  function Trim(s: string): (r: string)
    ensures |r| <= |s|
    ensures r != "" ==> !IsSpace(r[0]) && !IsSpace(r[|r| - 1])
  {
    TrimBy(s, IsSpace)
  }

  lemma {:induction false} TrimTwice(s: string)
    ensures Trim(Trim(s)) == Trim(s)
  {
  }

  /** The first value that is not blank, trimmed. */
  function FirstNonEmpty(first: string, second: string): string {
    if Trim(first) != "" then Trim(first) else Trim(second)
  }

  lemma {:induction false} FirstNonEmptyIs(first: string, second: string)
    ensures FirstNonEmpty(first, second) == if AllBy(first, IsSpace) then Trim(second) else Trim(first)
  {
    TrimByEmpty(first, IsSpace);
  }

  /** The blank, the tab, and the ways to break a line or page. */
  lemma {:induction false} SpacesAre(c: char)
    ensures IsSpace(c) <==> c as int in {9, 10, 11, 12, 13, 32}
  {
  }

  /** ASCII lower case. */
  function Lower(s: string): string {
    if s == "" then "" else [if 'A' <= s[0] <= 'Z' then s[0] - 'A' + 'a' else s[0]] + Lower(s[1..])
  }

  lemma {:induction false} LowerIs(s: string)
    ensures |Lower(s)| == |s|
    ensures forall i :: 0 <= i < |s| ==> Lower(s)[i] == if 65 <= s[i] as int <= 90 then (s[i] as int + 32) as char else s[i]
  {
    if s != "" {
      LowerIs(s[1..]);
    }
  }

  /** A number in decimal digits. */
  function Decimal(n: nat): string {
    (if n < 10 then "" else Decimal(n / 10)) + ["0123456789"[n % 10]]
  }

  /** The number some digits stand for. */
  function ValueOf(digits: string): nat
    requires forall i :: 0 <= i < |digits| ==> '0' <= digits[i] <= '9'
  {
    if digits == "" then 0 else 10 * ValueOf(digits[..|digits| - 1]) + (digits[|digits| - 1] as int - 48)
  }

  /** The digits are those of the number, without a zero in front. */
  lemma {:induction false} DecimalReads(n: nat)
    ensures var digits := Decimal(n);
            && (forall i :: 0 <= i < |digits| ==> '0' <= digits[i] <= '9') && ValueOf(digits) == n
            && |digits| > 0 && (n > 0 ==> digits[0] != '0')
  {
    var digits := Decimal(n);
    if n >= 10 {
      DecimalReads(n / 10);
    }
    var front := if n < 10 then "" else Decimal(n / 10);
    assert digits[..|digits| - 1] == front;
    assert "0123456789"[n % 10] as int == 48 + n % 10;
  }

  /** The first occurrence of `from` replaced. */
  function ReplaceFirst(s: string, from: string, to: string): string {
    if from <= s then to + s[|from|..]
    else if s == "" then "" else [s[0]] + ReplaceFirst(s[1..], from, to)
  }

  /** Only the first occurrence is replaced. */
  lemma {:induction false} ReplaceFirstIs(before: string, from: string, after: string, to: string)
    requires forall i :: 0 <= i < |before| ==> !(from <= (before + from + after)[i..])
    ensures ReplaceFirst(before + from + after, from, to) == before + to + after
  {
    var s := before + from + after;
    if before == "" {
      assert s == from + after && s[|from|..] == after;
    } else {
      var rest := before[1..] + from + after;
      assert s[0..] == s && s[1..] == rest && s[0] == before[0];
      forall i | 0 <= i < |before| - 1 ensures !(from <= rest[i..]) {
        assert rest[i..] == s[i + 1..];
      }
      ReplaceFirstIs(before[1..], from, after, to);
      assert before + to + after == [before[0]] + (before[1..] + to + after);
    }
  }

  /** A text without an occurrence stays as it is. */
  lemma {:induction false} ReplaceNothing(s: string, from: string, to: string)
    requires forall i :: 0 <= i <= |s| ==> !(from <= s[i..])
    ensures ReplaceFirst(s, from, to) == s
  {
    assert s[0..] == s;
    if s != "" {
      forall i | 0 <= i <= |s| - 1 ensures !(from <= s[1..][i..]) {
        assert s[1..][i..] == s[i + 1..];
      }
      ReplaceNothing(s[1..], from, to);
    }
  }

  /** Text pieces joined in order. */
  function Joined(pieces: seq<string>): string {
    if pieces == [] then "" else Joined(pieces[..|pieces| - 1]) + pieces[|pieces| - 1]
  }
}
