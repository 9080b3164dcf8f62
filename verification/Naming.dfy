/** Names shared by the meter, product-plan and ingest code: the 50-byte meterApiName,
    the disambiguated label, and the UUID shape of leftover meters.
    Strings stand for byte strings, one `char` per byte. */
module Naming {

  const MAX_METER_API_NAME := 50
  const MAX_METER_LABEL := 100

  predicate LowerHex(s: string) {
    forall i | 0 <= i < |s| :: '0' <= s[i] <= '9' || 'a' <= s[i] <= 'f'
  }

  type HexDigest = s: string | |s| == 40 && LowerHex(s)
    witness seq(40, i => '0')

  /** SHA-1 in hex is left uninterpreted: any map to 40 lower-case hex digits. */
  type Sha1Hex = string -> HexDigest

  function MeterAPIName(sha1: Sha1Hex, name: string): (r: string)
    ensures |r| <= MAX_METER_API_NAME
    ensures |name| <= MAX_METER_API_NAME ==> r == name
    ensures name != "" ==> r != ""
  {
    if |name| <= MAX_METER_API_NAME then name else sha1(name)
  }

  predicate SpaceFree(s: string) {
    forall i | 0 <= i < |s| :: s[i] != ' '
  }

  /** Applying the shortening twice changes nothing, so every component may apply it. */
  lemma MeterAPINameIdempotent(sha1: Sha1Hex, name: string)
    ensures MeterAPIName(sha1, MeterAPIName(sha1, name)) == MeterAPIName(sha1, name)
    ensures SpaceFree(name) ==> SpaceFree(MeterAPIName(sha1, name))
  {
  }

  /** The display label made unique by the api name, cut to Amberflo's cap. */
  function DisambiguatedLabel(title: string, apiName: string): (r: string)
    ensures |r| <= MAX_METER_LABEL
    ensures title != "" || apiName != "" ==> r != ""
  {
    var shown := if title == "" then apiName else title;
    var suffix := " (" + apiName + ")";
    if |shown| + |suffix| <= MAX_METER_LABEL then shown + suffix
    else
      var keep := MAX_METER_LABEL - |suffix|;
      if keep < 1 then
        if |apiName| <= MAX_METER_LABEL then apiName else apiName[..MAX_METER_LABEL]
      else shown[..keep] + suffix
  }

  /** There is room for at least one byte of label in front of the suffix. */
  predicate SuffixFits(apiName: string) { |apiName| + 3 < MAX_METER_LABEL }

  /** r ends in " (name)". */
  predicate Suffixed(r: string, name: string) {
    var n := |name|;
    && |r| >= n + 3 && r[|r| - n - 3] == ' ' && r[|r| - n - 2] == '('
    && forall k | 0 <= k < n :: r[|r| - n - 1 + k] == name[k]
  }

  lemma EndsWithSuffix(title: string, apiName: string)
    requires SuffixFits(apiName)
    ensures Suffixed(DisambiguatedLabel(title, apiName), apiName)
  {
  }

  lemma SuffixesOfOneLength(r: string, a: string, b: string)
    requires Suffixed(r, a) && Suffixed(r, b) && |a| == |b|
    ensures a == b
  {
  }

  /** The space that opens a shorter suffix falls inside a longer api name, or on the longer suffix's
      opening parenthesis. */
  lemma ShorterSuffixInside(r: string, a: string, b: string)
    requires Suffixed(r, a) && Suffixed(r, b) && |a| < |b|
    ensures |b| > |a| + 1 && b[|b| - |a| - 2] == ' '
  {
  }

  /** Distinct api names never share a disambiguated label, whatever the two labels are. */
  lemma DisambiguatedLabelsDiffer(l0: string, a0: string, l1: string, a1: string)
    requires SuffixFits(a0) && SuffixFits(a1) && SpaceFree(a0) && SpaceFree(a1)
    requires a0 != a1
    ensures DisambiguatedLabel(l0, a0) != DisambiguatedLabel(l1, a1)
  {
    hide DisambiguatedLabel, Suffixed;
    EndsWithSuffix(l0, a0);
    EndsWithSuffix(l1, a1);
    var r := DisambiguatedLabel(l0, a0);
    if r == DisambiguatedLabel(l1, a1) {
      if |a0| == |a1| {
        SuffixesOfOneLength(r, a0, a1);
      } else if |a0| < |a1| {
        ShorterSuffixInside(r, a0, a1);
      } else {
        ShorterSuffixInside(r, a1, a0);
      }
    }
  }

  /** Every meter label written after a collision is unique to its definition's api name:
      the shortened name always leaves room. */
  lemma MeterLabelsDiffer(sha1: Sha1Hex, l0: string, n0: string, l1: string, n1: string)
    requires SpaceFree(n0) && SpaceFree(n1)
    requires MeterAPIName(sha1, n0) != MeterAPIName(sha1, n1)
    ensures DisambiguatedLabel(l0, MeterAPIName(sha1, n0)) != DisambiguatedLabel(l1, MeterAPIName(sha1, n1))
  {
    MeterAPINameIdempotent(sha1, n0);
    MeterAPINameIdempotent(sha1, n1);
    DisambiguatedLabelsDiffer(l0, MeterAPIName(sha1, n0), l1, MeterAPIName(sha1, n1));
  }

  predicate EndsWith(s: string, tail: string) {
    |tail| <= |s| && s[|s| - |tail|..] == tail
  }

  lemma LongerNameEndsWith(r: string, a: string, b: string)
    requires Suffixed(r, a) && Suffixed(r, b) && |a| < |b|
    ensures EndsWith(b, " (" + a)
  {
    ShorterSuffixInside(r, a, b);
    var n := |b| - |a| - 2;
    forall k | 0 <= k < |a| + 2 ensures b[n + k] == (" (" + a)[k] {
      assert r[|r| - |b| - 1 + n + k] == b[n + k];
    }
  }

  lemma LabelsMeet(a: string, b: string)
    requires SuffixFits(b) && EndsWith(b, " (" + a)
    ensures exists l0, l1 :: DisambiguatedLabel(l0, a) == DisambiguatedLabel(l1, b)
  {
    var y := b[..|b| - |a| - 2];
    assert b == y + (" (" + a);
    assert DisambiguatedLabel("x (" + y, a) == "x (" + y + " (" + a + ")" == DisambiguatedLabel("x", b);
  }

  /** Without the space-free proviso two api names that leave room for a label can share one if and
      only if one of them ends in " (" and the other. */
  lemma SpacedNamesCollide(a: string, b: string)
    requires SuffixFits(a) && SuffixFits(b) && a != b
    ensures (exists l0, l1 :: DisambiguatedLabel(l0, a) == DisambiguatedLabel(l1, b)) <==>
              EndsWith(b, " (" + a) || EndsWith(a, " (" + b)
  {
    hide DisambiguatedLabel, Suffixed, EndsWith;
    forall l0, l1 | DisambiguatedLabel(l0, a) == DisambiguatedLabel(l1, b)
      ensures EndsWith(b, " (" + a) || EndsWith(a, " (" + b)
    {
      EndsWithSuffix(l0, a);
      EndsWithSuffix(l1, b);
      var r := DisambiguatedLabel(l0, a);
      if |a| == |b| {
        SuffixesOfOneLength(r, a, b);
      } else if |a| < |b| {
        LongerNameEndsWith(r, a, b);
      } else {
        LongerNameEndsWith(r, b, a);
      }
    }
    if EndsWith(b, " (" + a) {
      LabelsMeet(a, b);
    } else if EndsWith(a, " (" + b) {
      LabelsMeet(b, a);
      var l1, l0 :| DisambiguatedLabel(l1, b) == DisambiguatedLabel(l0, a);
    }
  }

  /** Ids too long for a suffix (product-item-price ids can be) lose the label: their names
      collide exactly when the ids agree on the bytes that survive the cut. */
  lemma LongIdsCollide(l0: string, a0: string, l1: string, a1: string)
    requires !SuffixFits(a0) && !SuffixFits(a1)
    ensures DisambiguatedLabel(l0, a0) == DisambiguatedLabel(l1, a1) <==>
      (if |a0| <= MAX_METER_LABEL then a0 else a0[..MAX_METER_LABEL]) ==
      (if |a1| <= MAX_METER_LABEL then a1 else a1[..MAX_METER_LABEL])
  {
  }

  predicate HexDigit(c: char) {
    '0' <= c <= '9' || 'a' <= c <= 'f' || 'A' <= c <= 'F'
  }

  /** Kubernetes UIDs were once used as meterApiName; such meters are leftovers. */
  predicate UuidShaped(s: string) {
    && |s| == 36
    && forall i | 0 <= i < 36 ::
      if i == 8 || i == 13 || i == 18 || i == 23 then s[i] == '-' else HexDigit(s[i])
  }
}
