/** The identifier guard of the API service: the `isUUID` regular expression
    `^[0-9a-fA-F]{8}-[0-9a-fA-F]{4}-[0-9a-fA-F]{4}-[0-9a-fA-F]{4}-[0-9a-fA-F]{12}$`
    and the "missing or not a UUID" test every guarded call makes first. */
module Uuid {
  import opened Wrappers

  predicate IsHexDigit(c: char) {
    ('0' <= c <= '9') || ('a' <= c <= 'f') || ('A' <= c <= 'F')
  }

  predicate AllHex(t: string) {
    forall i :: 0 <= i < |t| ==> IsHexDigit(t[i])
  }

  /** `s` is a run of hex-digit groups of the given lengths separated by single
      hyphens, with nothing before or after: the shape the regular expression matches. */
  predicate HexGroups(s: string, lens: seq<nat>)
    decreases |lens|
  {
    if lens == [] then s == []
    else
      |s| >= lens[0] && AllHex(s[..lens[0]]) &&
      if |lens| == 1 then |s| == lens[0]
      else |s| > lens[0] && s[lens[0]] == '-' && HexGroups(s[lens[0] + 1..], lens[1..])
  }

  function Sum(lens: seq<nat>): nat {
    if lens == [] then 0 else lens[0] + Sum(lens[1..])
  }

  /** `isUUID(id)` */
  predicate IsUuid(s: string) {
    HexGroups(s, [8, 4, 4, 4, 12])
  }

  /** A string made of groups is as long as the groups plus one hyphen between each two. */
  lemma {:induction false} HexGroupsLength(s: string, lens: seq<nat>)
    requires lens != [] && HexGroups(s, lens)
    ensures |s| == Sum(lens) + |lens| - 1
    decreases |lens|
  {
    if |lens| > 1 {
      HexGroupsLength(s[lens[0] + 1..], lens[1..]);
    }
  }

  /** Every string `isUUID` accepts has 36 characters. */
  lemma UuidLength(s: string)
    requires IsUuid(s)
    ensures |s| == 36
  {
    var lens: seq<nat> := [8, 4, 4, 4, 12];
    HexGroupsLength(s, lens);
    assert lens[1..][1..][1..][1..][1..] == [];
    assert Sum(lens) == 32;
  }

  /** A hex group followed by a hyphen and further groups is again made of groups. */
  lemma HexGroupsCons(g: string, t: string, rest: seq<nat>)
    requires rest != [] && AllHex(g) && HexGroups(t, rest)
    ensures HexGroups(g + "-" + t, [|g|] + rest)
  {
    var s := g + "-" + t;
    var lens := [|g|] + rest;
    assert lens[0] == |g| && lens[1..] == rest;
    assert s[..|g|] == g && s[|g|] == '-' && s[|g| + 1..] == t;
  }

  /** Any five hex groups of lengths 8, 4, 4, 4 and 12, joined by hyphens, are a UUID. */
  lemma UuidOfGroups(g0: string, g1: string, g2: string, g3: string, g4: string)
    requires |g0| == 8 && |g1| == 4 && |g2| == 4 && |g3| == 4 && |g4| == 12
    requires AllHex(g0) && AllHex(g1) && AllHex(g2) && AllHex(g3) && AllHex(g4)
    ensures IsUuid(g0 + "-" + g1 + "-" + g2 + "-" + g3 + "-" + g4)
  {
    var t3 := g3 + "-" + g4;
    var t2 := g2 + "-" + t3;
    var t1 := g1 + "-" + t2;
    assert HexGroups(g4, [12]);
    HexGroupsCons(g3, g4, [12]);
    HexGroupsCons(g2, t3, [4, 12]);
    HexGroupsCons(g1, t2, [4, 4, 12]);
    HexGroupsCons(g0, t1, [4, 4, 4, 12]);
    assert g0 + "-" + t1 == g0 + "-" + g1 + "-" + g2 + "-" + g3 + "-" + g4;
  }

  /** Upper- and lower-case hex digits are both accepted. */
  lemma UuidAcceptsMixedCase()
    ensures IsUuid("123e4567" + "-" + "E89B" + "-" + "12d3" + "-" + "a456" + "-" + "426614174000")
  {
    assert AllHex("123e4567") && AllHex("E89B") && AllHex("12d3") && AllHex("a456") && AllHex("426614174000");
    UuidOfGroups("123e4567", "E89B", "12d3", "a456", "426614174000");
  }

  /** A string one group short is rejected. */
  lemma UuidRejectsShort()
    ensures !IsUuid("123e4567-e89b-12d3-a456")
  {
    if IsUuid("123e4567-e89b-12d3-a456") {
      UuidLength("123e4567-e89b-12d3-a456");
    }
  }

  /** Hyphen positions of the 8-4-4-4-12 layout. */
  predicate IsDashPosition(i: int) {
    i == 8 || i == 13 || i == 18 || i == 23
  }

  predicate PositionOk(s: string, i: nat)
    requires i < |s|
  {
    if IsDashPosition(i) then s[i] == '-' else IsHexDigit(s[i])
  }

  /** The 8-4-4-4-12 layout, stated character by character. */
  predicate UuidLayout(s: string) {
    |s| == 36 && forall i :: 0 <= i < 36 ==> PositionOk(s, i)
  }

  lemma AllHexSlice(s: string, lo: nat, hi: nat)
    requires lo <= hi <= |s|
    ensures AllHex(s[lo..hi]) <==> forall i :: lo <= i < hi ==> IsHexDigit(s[i])
  {
    assert forall i :: lo <= i < hi ==> s[lo..hi][i - lo] == s[i];
  }

  /** The regular expression and the character-by-character layout accept the same strings. */
  lemma UuidLayoutIff(s: string)
    ensures IsUuid(s) <==> UuidLayout(s)
  {
    var l0: seq<nat> := [8, 4, 4, 4, 12];
    var l1: seq<nat> := [4, 4, 4, 12];
    var l2: seq<nat> := [4, 4, 12];
    var l3: seq<nat> := [4, 12];
    var l4: seq<nat> := [12];
    assert l0[1..] == l1 && l1[1..] == l2 && l2[1..] == l3 && l3[1..] == l4;
    if |s| == 36 {
      assert s[9..][5..] == s[14..];
      assert s[14..][5..] == s[19..];
      assert s[19..][5..] == s[24..];
      assert s[9..][..4] == s[9..13];
      assert s[14..][..4] == s[14..18];
      assert s[19..][..4] == s[19..23];
      assert s[24..][..12] == s[24..36];
      assert s[9..][4] == s[13] && s[14..][4] == s[18] && s[19..][4] == s[23];
      AllHexSlice(s, 0, 8);
      AllHexSlice(s, 9, 13);
      AllHexSlice(s, 14, 18);
      AllHexSlice(s, 19, 23);
      AllHexSlice(s, 24, 36);
      assert IsUuid(s) <==>
        AllHex(s[..8]) && s[8] == '-' && AllHex(s[9..13]) && s[13] == '-' && AllHex(s[14..18])
        && s[18] == '-' && AllHex(s[19..23]) && s[23] == '-' && AllHex(s[24..36]);
      assert s[..8] == s[0..8];
      if UuidLayout(s) {
        assert PositionOk(s, 8) && PositionOk(s, 13) && PositionOk(s, 18) && PositionOk(s, 23);
        assert forall i :: 0 <= i < 36 && !IsDashPosition(i) ==> IsHexDigit(s[i]) by {
          forall i | 0 <= i < 36 && !IsDashPosition(i) ensures IsHexDigit(s[i]) {
            assert PositionOk(s, i);
          }
        }
      }
      if IsUuid(s) {
        forall i | 0 <= i < 36 ensures PositionOk(s, i) {
          if !IsDashPosition(i) {
            assert (0 <= i < 8) || (9 <= i < 13) || (14 <= i < 18) || (19 <= i < 23) || (24 <= i < 36);
          }
        }
      }
    } else if IsUuid(s) {
      UuidLength(s);
    }
  }

  /** The regular-expression test as a left-to-right scan of the string. */
  method CheckUuid(s: string) returns (ok: bool)
    ensures ok <==> IsUuid(s)
  {
    UuidLayoutIff(s);
    if |s| != 36 {
      return false;
    }
    var i := 0;
    while i < 36
      invariant 0 <= i <= 36
      invariant forall j :: 0 <= j < i ==> PositionOk(s, j)
    {
      if !PositionOk(s, i) {
        return false;
      }
      i := i + 1;
    }
    return true;
  }

  /** `!id || !isUUID(id)` is false: the id is present, non-empty and a UUID. */
  predicate ValidId(id: Option<string>) {
    id.Some? && id.value != "" && IsUuid(id.value)
  }

  /** The emptiness test is subsumed by the regular expression. */
  lemma ValidIdIff(s: string)
    ensures ValidId(Some(s)) <==> IsUuid(s)
  {
    if IsUuid(s) {
      UuidLength(s);
    }
  }
}
