/** Strings as sequences of characters: trimming, truncation, joining and decimal numbers. */
module Text {

  /** White space as Unicode defines it. */
  predicate IsSpace(c: char) {
    c in "\t\n\U{0B}\U{0C}\r \U{85}\U{A0}\U{1680}\U{2028}\U{2029}\U{202F}\U{205F}\U{3000}"
        || '\U{2000}' <= c <= '\U{200A}'
  }

  function TrimLeft(s: string): string {
    if s != "" && IsSpace(s[0]) then TrimLeft(s[1..]) else s
  }

  function TrimRight(s: string): string {
    if s != "" && IsSpace(s[|s| - 1]) then TrimRight(s[..|s| - 1]) else s
  }

  function TrimSpace(s: string): string {
    TrimRight(TrimLeft(s))
  }

  /** `s` up to `i` and from `j` on is white space. */
  ghost predicate SpaceAround(s: string, i: int, j: int) {
    && 0 <= i <= j <= |s|
    && (forall x | 0 <= x < i :: IsSpace(s[x]))
    && (forall x | j <= x < |s| :: IsSpace(s[x]))
  }

  /** `t` is what remains of `s` without the white space around it. */
  ghost predicate IsTrimmed(s: string, t: string) {
    && (exists i, j | SpaceAround(s, i, j) :: t == s[i..j])
    && (t != "" ==> !IsSpace(t[0]) && !IsSpace(t[|t| - 1]))
  }

  lemma {:induction false} TrimLeftCuts(s: string) returns (i: nat)
    ensures i <= |s| && TrimLeft(s) == s[i..] && forall x | 0 <= x < i :: IsSpace(s[x])
    ensures TrimLeft(s) != "" ==> !IsSpace(TrimLeft(s)[0])
  {
    hide IsSpace;
    i := 0;
    if s != "" && IsSpace(s[0]) {
      var k := TrimLeftCuts(s[1..]);
      i := k + 1;
      assert s[1..][k..] == s[i..];
      assert forall x | 0 < x < i :: s[x] == s[1..][x - 1];
    }
  }

  lemma {:induction false} TrimRightCuts(s: string) returns (j: nat)
    ensures j <= |s| && TrimRight(s) == s[..j] && forall x | j <= x < |s| :: IsSpace(s[x])
    ensures TrimRight(s) != "" ==> !IsSpace(TrimRight(s)[|TrimRight(s)| - 1])
  {
    hide IsSpace;
    j := |s|;
    if s != "" && IsSpace(s[|s| - 1]) {
      var front := s[..|s| - 1];
      j := TrimRightCuts(front);
      assert front[..j] == s[..j];
      assert forall x | j <= x < |front| :: s[x] == front[x];
    }
  }

  lemma TrimSpaceTrims(s: string)
    ensures IsTrimmed(s, TrimSpace(s))
  {
    hide IsSpace, TrimLeft, TrimRight;
    var i := TrimLeftCuts(s);
    var rest := s[i..];
    var k := TrimRightCuts(rest);
    assert rest[..k] == s[i..i + k];
    assert TrimSpace(s) != "" ==> TrimSpace(s)[0] == rest[0];
    assert forall x | i + k <= x < |s| :: s[x] == rest[x - i];
    assert SpaceAround(s, i, i + k);
  }

  lemma SpaceEnds(s: string, i: int, j: int, k: int, l: int)
    requires SpaceAround(s, i, j) && SpaceAround(s, k, l)
    requires i < j ==> !IsSpace(s[i]) && !IsSpace(s[j - 1])
    ensures i < j ==> k <= i && j <= l
  {
    hide IsSpace;
  }

  lemma TrimmedIsUnique(s: string, t: string, u: string)
    requires IsTrimmed(s, t) && IsTrimmed(s, u)
    ensures t == u
  {
    hide IsSpace;
    var i, j :| SpaceAround(s, i, j) && t == s[i..j];
    var k, l :| SpaceAround(s, k, l) && u == s[k..l];
    SpaceEnds(s, i, j, k, l);
    SpaceEnds(s, k, l, i, j);
  }

  /** Trimming is exactly that: of all strings only `TrimSpace(s)` is what remains without the white space. */
  lemma TrimSpaceIff(s: string, t: string)
    ensures t == TrimSpace(s) <==> IsTrimmed(s, t)
  {
    TrimSpaceTrims(s);
    if IsTrimmed(s, t) {
      TrimmedIsUnique(s, t, TrimSpace(s));
    }
    hide *;
  }

  /** At most `max` characters; a bound that is not positive means no bound. */
  function Truncate(s: string, max: int): (text: string)
    ensures text <= s && |text| == if 0 < max < |s| then max else |s|
  {
    if max <= 0 || |s| <= max then s else s[..max]
  }

  function Join(lines: seq<string>): string {
    if lines == [] then "" else if |lines| == 1 then lines[0] else lines[0] + "\n" + Join(lines[1..])
  }

  /** The length of the text in UTF-8. */
  function Utf8Length(s: string): nat {
    if s == "" then 0
    else
      var width := if s[0] < '\U{80}' then 1 else if s[0] < '\U{800}' then 2 else if s[0] < '\U{10000}' then 3 else 4;
      Utf8Length(s[1..]) + width
  }

  /** The length counts character by character, and each character by the range it lies in. */
  lemma {:induction false} Utf8LengthAdds(s: string, t: string)
    ensures Utf8Length(s + t) == Utf8Length(s) + Utf8Length(t)
  {
    if s == "" {
      assert s + t == t;
    } else {
      Utf8LengthAdds(s[1..], t);
      assert (s + t)[1..] == s[1..] + t;
    }
  }

  lemma Utf8LengthOfChar(c: char)
    ensures Utf8Length([c]) == 1 <==> c as int < 0x80
    ensures Utf8Length([c]) == 2 <==> 0x80 <= c as int < 0x800
    ensures Utf8Length([c]) == 3 <==> 0x800 <= c as int < 0x10000
    ensures Utf8Length([c]) == 4 <==> 0x10000 <= c as int
  {
    assert [c][1..] == "";
  }

  lemma {:induction false} JoinSplits(front: seq<string>, rest: seq<string>)
    requires front != [] && rest != []
    ensures Join(front + rest) == Join(front) + "\n" + Join(rest)
  {
    if |front| == 1 {
      assert front + rest == [front[0]] + rest && (front + rest)[1..] == rest;
    } else {
      JoinSplits(front[1..], rest);
      assert (front + rest)[1..] == front[1..] + rest;
    }
  }

  const DIGITS := "0123456789"

  function Decimal(n: nat): (text: string)
    ensures text != ""
  {
    if n < 10 then [DIGITS[n]] else Decimal(n / 10) + [DIGITS[n % 10]]
  }

  /** `s` is cut to a prefix of what `t` is cut to, if `s` is a prefix of `t`. */
  lemma TruncateKeepsPrefix(s: string, t: string, max: int)
    requires s <= t
    ensures Truncate(s, max) <= Truncate(t, max)
  {
  }

  /** The number that a string of digits stands for. */
  function ValueOf(text: string): int {
    if text == "" then 0 else 10 * ValueOf(text[..|text| - 1]) + (text[|text| - 1] as int - '0' as int)
  }

  /** The digits are those of the number, and the first is zero only for zero. */
  lemma {:induction false} DecimalReadsBack(n: nat)
    ensures ValueOf(Decimal(n)) == n
    ensures forall i | 0 <= i < |Decimal(n)| :: '0' <= Decimal(n)[i] <= '9'
    ensures n > 0 ==> Decimal(n)[0] != '0'
  {
    var text := Decimal(n);
    assert text[|text| - 1] == DIGITS[n % 10] && DIGITS[n % 10] as int == '0' as int + n % 10;
    if n >= 10 {
      DecimalReadsBack(n / 10);
      assert text[..|text| - 1] == Decimal(n / 10);
    } else {
      assert text[..|text| - 1] == "" && ValueOf("") == 0;
    }
  }

  lemma {:induction false} DecimalInjective(m: nat, n: nat)
    ensures Decimal(m) == Decimal(n) <==> m == n
  {
    if Decimal(m) == Decimal(n) {
      var a, b := Decimal(m), Decimal(n);
      assert DIGITS[m % 10] == a[|a| - 1] == b[|b| - 1] == DIGITS[n % 10];
      assert m % 10 == n % 10;
      if m >= 10 && n >= 10 {
        assert Decimal(m / 10) == a[..|a| - 1] == b[..|b| - 1] == Decimal(n / 10);
        DecimalInjective(m / 10, n / 10);
      }
    }
  }
}
