/**
 * Datacenter identifiers: which text a connection context accepts as a DC
 * id, which flags its suffix sets, and the signed integer it is encoded as.
 */
module DcId {
  import opened PhpStrings

  const MinDc: int := 1
  const MaxDc: int := 1000
  /** Added to the numeric id of a test-server DC. */
  const TestOffset: int := 10000
  const MediaSuffix: string := "_media"
  const CdnSuffix: string := "_cdn"

  /** `setDc` accepts exactly the ids whose `intval` lies in [1, 1000]. */
  predicate ValidDc(s: string)
  {
    MinDc <= IntVal(s) <= MaxDc
  }

  /** The flags an encoded DC id carries. */
  datatype Decoded = Decoded(id: int, test: bool, media: bool)

  /** Inverse of Encode on the ids `setDc` accepts. */
  function Decode(r: int): Decoded
  {
    var a := if r < 0 then -r else r;
    if a > TestOffset then Decoded(a - TestOffset, true, r < 0) else Decoded(a, false, r < 0)
  }

  /**
   * `getIntDc`: the numeric id, plus 10000 for a test DC, negated for a
   * media DC. For an id in range the result is never 0, its magnitude says
   * whether it is a test DC, its sign whether it is a media DC, and Decode
   * recovers all three.
   */
  function Encode(id: int, test: bool, media: bool): (r: int)
    ensures MinDc <= id <= MaxDc ==> Decode(r) == Decoded(id, test, media)
    ensures MinDc <= id <= MaxDc ==> r != 0 && (r < 0 <==> media)
    ensures MinDc <= id <= MaxDc ==>
      var a := if r < 0 then -r else r;
      (!test ==> MinDc <= a <= MaxDc) && (test ==> TestOffset + MinDc <= a <= TestOffset + MaxDc)
  {
    var d := if test then id + TestOffset else id;
    if media then -d else d
  }

  /** Two DC ids in range with different flags or numbers never share an encoding. */
  lemma EncodeInjective(id1: int, test1: bool, media1: bool, id2: int, test2: bool, media2: bool)
    requires MinDc <= id1 <= MaxDc && MinDc <= id2 <= MaxDc
    requires Encode(id1, test1, media1) == Encode(id2, test2, media2)
    ensures id1 == id2 && test1 == test2 && media1 == media2
  {
    assert Decode(Encode(id1, test1, media1)) == Decoded(id1, test1, media1);
    assert Decode(Encode(id2, test2, media2)) == Decoded(id2, test2, media2);
  }

  /** An occurrence of a needle that starts with '_' lies past a run of digits. */
  lemma {:induction false} OccursPastDigits(d: string, rest: string, needle: string, i: nat)
    requires AllDigits(d)
    requires needle != [] && needle[0] == '_'
    requires OccursAt(d + rest, needle, i)
    ensures i >= |d| && OccursAt(rest, needle, i - |d|)
  {
    assert (d + rest)[i] == needle[0];
    assert (d + rest)[i..i + |needle|] == rest[i - |d|..i - |d| + |needle|];
  }

  /** "_cdn" does not occur in "_media", nor "_media" in "_cdn". */
  lemma SuffixesDisjoint()
    ensures forall j: nat :: !OccursAt(MediaSuffix, CdnSuffix, j)
    ensures forall j: nat :: !OccursAt(CdnSuffix, MediaSuffix, j)
  {
    forall j: nat ensures !OccursAt(MediaSuffix, CdnSuffix, j) {
      if j + |CdnSuffix| <= |MediaSuffix| {
        var w := MediaSuffix[j..j + |CdnSuffix|];
        if j == 0 {
          assert w[1] != CdnSuffix[1];
        } else {
          assert w[0] != CdnSuffix[0];
        }
      }
    }
  }

  /** Which of the two suffixes occurs in `<digits><suffix>`. */
  lemma SuffixOccurrence(d: string, suffix: string, needle: string)
    requires AllDigits(d)
    requires suffix in {"", MediaSuffix, CdnSuffix} && needle in {MediaSuffix, CdnSuffix}
    ensures Contains(d + suffix, needle) <==> suffix == needle
  {
    if suffix == needle {
      assert (d + suffix)[|d|..|d| + |needle|] == needle;
      assert OccursAt(d + suffix, needle, |d|);
      StrPosIsFirstOccurrence(d + suffix, needle);
    } else {
      SuffixesDisjoint();
      forall i: nat ensures !OccursAt(d + suffix, needle, i) {
        if OccursAt(d + suffix, needle, i) {
          OccursPastDigits(d, suffix, needle, i);
        }
      }
      StrPosIsFirstOccurrence(d + suffix, needle);
    }
  }

  /**
   * The text form `<id>[_media|_cdn]` of every id in [1, 1000] is accepted,
   * reads back as that id, and sets the media flag exactly for "_media" and
   * the CDN flag exactly for "_cdn".
   */
  lemma TextForm(id: nat, suffix: string)
    requires MinDc <= id <= MaxDc
    requires suffix in {"", MediaSuffix, CdnSuffix}
    ensures IntVal(Decimal(id) + suffix) == id && ValidDc(Decimal(id) + suffix)
    ensures Contains(Decimal(id) + suffix, MediaSuffix) <==> suffix == MediaSuffix
    ensures Contains(Decimal(id) + suffix, CdnSuffix) <==> suffix == CdnSuffix
  {
    assert suffix == [] || suffix[0] == '_';
    IntValOfDecimal(id, suffix);
    SuffixOccurrence(Decimal(id), suffix, MediaSuffix);
    SuffixOccurrence(Decimal(id), suffix, CdnSuffix);
  }

  /** "5_media" is DC 5 with the media flag and without the CDN flag. */
  lemma MediaExample()
    ensures ValidDc("5_media") && IntVal("5_media") == 5
    ensures Contains("5_media", MediaSuffix) && !Contains("5_media", CdnSuffix)
  {
    assert Decimal(5) + MediaSuffix == "5_media";
    TextForm(5, MediaSuffix);
  }

  /** "1001" is refused. */
  lemma OutOfRangeExample()
    ensures !ValidDc("1001")
  {
    assert Decimal(1) == "1";
    assert Decimal(10) == "10";
    assert Decimal(100) == "100";
    assert Decimal(1001) == "1001";
    IntValOfDecimal(1001, "");
    assert Decimal(1001) + "" == "1001";
  }

  /** DC 5 encodes as 5, 10005 on the test servers, and negated for media. */
  lemma EncodeExamples()
    ensures Encode(5, false, false) == 5 && Encode(5, true, false) == 10005
    ensures Encode(5, false, true) == -5 && Encode(5, true, true) == -10005
  {
  }
}
