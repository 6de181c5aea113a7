/** The flag encoder: the two four-letter codes become sixteen 0/1 flags,
    one per letter of each axis, so that every calculator is a weighted sum. */
module TypeFlags {
  import opened Base
  import MbtiType
  import LoveType

  /** A flag: the number 0 or 1. */
  type Bit = x: real | x == 0.0 || x == 1.0

  function Flag(b: bool): (r: Bit)
    ensures r == 1.0 <==> b
  {
    if b then 1.0 else 0.0
  }

  /** `c === "X"` for the k-th character of the split string: false when the
      string is shorter than k + 1 (the character is then `undefined`). */
  predicate LetterIs(s: string, k: nat, c: char)
  {
    k < |s| && s[k] == c
  }

  datatype MbtiFlags = MbtiFlags(E: Bit, I: Bit, S: Bit, N: Bit, Tm: Bit, Fm: Bit, J: Bit, Pm: Bit)

  datatype LoveFlags = LoveFlags(L: Bit, Fl: Bit, C: Bit, A: Bit, R: Bit, Pl: Bit, O: Bit, El: Bit)

  /** The `TypeFlags` record: personality flags E, I, N, S, Fm (feeling),
      Tm (thinking), J, Pm (perceiving) and love flags L (lead), Fl (follow),
      C (cuddly), A (accept), R (realistic), Pl (passionate), O (optimistic),
      El (earnest). */
  datatype Flags = Flags(
    E: Bit, I: Bit, N: Bit, S: Bit, Fm: Bit, Tm: Bit, J: Bit, Pm: Bit,
    L: Bit, Fl: Bit, C: Bit, A: Bit, R: Bit, Pl: Bit, O: Bit, El: Bit)

  /** `parseMbti`: each flag says whether the upper-cased code has that letter
      at that letter's position. */
  function ParseMbti(mbti: string): (f: MbtiFlags)
    ensures f.E == 1.0 <==> |mbti| > 0 && UpperChar(mbti[0]) == 'E'
    ensures f.I == 1.0 <==> |mbti| > 0 && UpperChar(mbti[0]) == 'I'
    ensures f.S == 1.0 <==> |mbti| > 1 && UpperChar(mbti[1]) == 'S'
    ensures f.N == 1.0 <==> |mbti| > 1 && UpperChar(mbti[1]) == 'N'
    ensures f.Tm == 1.0 <==> |mbti| > 2 && UpperChar(mbti[2]) == 'T'
    ensures f.Fm == 1.0 <==> |mbti| > 2 && UpperChar(mbti[2]) == 'F'
    ensures f.J == 1.0 <==> |mbti| > 3 && UpperChar(mbti[3]) == 'J'
    ensures f.Pm == 1.0 <==> |mbti| > 3 && UpperChar(mbti[3]) == 'P'
  {
    var upper := Upper(mbti);
    MbtiFlags(
      E := Flag(LetterIs(upper, 0, 'E')), I := Flag(LetterIs(upper, 0, 'I')),
      S := Flag(LetterIs(upper, 1, 'S')), N := Flag(LetterIs(upper, 1, 'N')),
      Tm := Flag(LetterIs(upper, 2, 'T')), Fm := Flag(LetterIs(upper, 2, 'F')),
      J := Flag(LetterIs(upper, 3, 'J')), Pm := Flag(LetterIs(upper, 3, 'P')))
  }

  /** `parseLoveType`, the same for the love-type letters. */
  function ParseLoveType(loveType: string): (f: LoveFlags)
    ensures f.L == 1.0 <==> |loveType| > 0 && UpperChar(loveType[0]) == 'L'
    ensures f.Fl == 1.0 <==> |loveType| > 0 && UpperChar(loveType[0]) == 'F'
    ensures f.C == 1.0 <==> |loveType| > 1 && UpperChar(loveType[1]) == 'C'
    ensures f.A == 1.0 <==> |loveType| > 1 && UpperChar(loveType[1]) == 'A'
    ensures f.R == 1.0 <==> |loveType| > 2 && UpperChar(loveType[2]) == 'R'
    ensures f.Pl == 1.0 <==> |loveType| > 2 && UpperChar(loveType[2]) == 'P'
    ensures f.O == 1.0 <==> |loveType| > 3 && UpperChar(loveType[3]) == 'O'
    ensures f.El == 1.0 <==> |loveType| > 3 && UpperChar(loveType[3]) == 'E'
  {
    var upper := Upper(loveType);
    LoveFlags(
      L := Flag(LetterIs(upper, 0, 'L')), Fl := Flag(LetterIs(upper, 0, 'F')),
      C := Flag(LetterIs(upper, 1, 'C')), A := Flag(LetterIs(upper, 1, 'A')),
      R := Flag(LetterIs(upper, 2, 'R')), Pl := Flag(LetterIs(upper, 2, 'P')),
      O := Flag(LetterIs(upper, 3, 'O')), El := Flag(LetterIs(upper, 3, 'E')))
  }

  /** The personality half of a flag record. */
  function MbtiPart(f: Flags): MbtiFlags
  {
    MbtiFlags(f.E, f.I, f.S, f.N, f.Tm, f.Fm, f.J, f.Pm)
  }

  /** The love-type half of a flag record. */
  function LovePart(f: Flags): LoveFlags
  {
    LoveFlags(f.L, f.Fl, f.C, f.A, f.R, f.Pl, f.O, f.El)
  }

  /** `getFlags`: the sixteen flags of the two parsers, copied unchanged; a
      record is determined by its two halves, so nothing else is added. */
  function GetFlags(mbti: string, loveType: string): (f: Flags)
    ensures MbtiPart(f) == ParseMbti(mbti)
    ensures LovePart(f) == ParseLoveType(loveType)
  {
    var m := ParseMbti(mbti);
    var l := ParseLoveType(loveType);
    Flags(
      E := m.E, I := m.I, N := m.N, S := m.S, Fm := m.Fm, Tm := m.Tm, J := m.J, Pm := m.Pm,
      L := l.L, Fl := l.Fl, C := l.C, A := l.A, R := l.R, Pl := l.Pl, O := l.O, El := l.El)
  }

  lemma HalvesDetermine(f: Flags, g: Flags)
    requires MbtiPart(f) == MbtiPart(g) && LovePart(f) == LovePart(g)
    ensures f == g
  {
  }

  /** Flags as a legal code pair produces them: each complementary pair
      sums to one. */
  predicate Legal(f: Flags)
  {
    && f.E + f.I == 1.0 && f.N + f.S == 1.0 && f.Tm + f.Fm == 1.0 && f.J + f.Pm == 1.0
    && f.L + f.Fl == 1.0 && f.C + f.A == 1.0 && f.R + f.Pl == 1.0 && f.O + f.El == 1.0
  }

  /** A personality code whose letters come from the four axes, in either
      case, sets exactly one flag of each pair. */
  lemma MbtiPairsSumToOne(mbti: string)
    requires MbtiType.InAlphabets(Upper(mbti))
    ensures var m := ParseMbti(mbti);
      m.E + m.I == 1.0 && m.S + m.N == 1.0 && m.Tm + m.Fm == 1.0 && m.J + m.Pm == 1.0
  {
  }

  lemma LovePairsSumToOne(loveType: string)
    requires LoveType.InAlphabets(Upper(loveType))
    ensures var l := ParseLoveType(loveType);
      l.L + l.Fl == 1.0 && l.C + l.A == 1.0 && l.R + l.Pl == 1.0 && l.O + l.El == 1.0
  {
  }

  /** A missing position, or a letter outside the pair, clears both flags of
      the pair; nothing throws. */
  lemma MbtiOutsidePairClears(mbti: string, k: nat)
    requires k < 4
    requires k >= |mbti| || UpperChar(mbti[k]) !in ["EI", "NS", "TF", "JP"][k]
    ensures var m := ParseMbti(mbti);
      && (k == 0 ==> m.E == 0.0 && m.I == 0.0)
      && (k == 1 ==> m.S == 0.0 && m.N == 0.0)
      && (k == 2 ==> m.Tm == 0.0 && m.Fm == 0.0)
      && (k == 3 ==> m.J == 0.0 && m.Pm == 0.0)
  {
  }

  lemma LoveOutsidePairClears(loveType: string, k: nat)
    requires k < 4
    requires k >= |loveType| || UpperChar(loveType[k]) !in ["LF", "CA", "RP", "OE"][k]
    ensures var l := ParseLoveType(loveType);
      && (k == 0 ==> l.L == 0.0 && l.Fl == 0.0)
      && (k == 1 ==> l.C == 0.0 && l.A == 0.0)
      && (k == 2 ==> l.R == 0.0 && l.Pl == 0.0)
      && (k == 3 ==> l.O == 0.0 && l.El == 0.0)
  {
  }

  /** Encoding ignores case. */
  lemma CaseInsensitive(mbti: string, loveType: string)
    ensures GetFlags(Upper(mbti), Upper(loveType)) == GetFlags(mbti, loveType)
  {
    UpperIdempotent(mbti);
    UpperIdempotent(loveType);
    assert ParseMbti(Upper(mbti)) == ParseMbti(mbti);
    assert ParseLoveType(Upper(loveType)) == ParseLoveType(loveType);
  }

  /** Listed codes give legal flags. */
  lemma ListedCodesLegal(mbti: string, loveType: string)
    requires MbtiType.IsValid(mbti) && LoveType.IsValid(loveType)
    ensures Legal(GetFlags(mbti, loveType))
  {
    MbtiType.ValidIffInAlphabets(mbti);
    LoveType.ValidIffInAlphabets(loveType);
    MbtiType.ShapeChars(mbti);
    LoveType.ShapeChars(loveType);
    UpperUnchanged(mbti);
    UpperUnchanged(loveType);
    MbtiPairsSumToOne(mbti);
    LovePairsSumToOne(loveType);
  }

  /** The personality code a flag record stands for. */
  function MbtiOf(f: Flags): (m: string)
    ensures MbtiType.IsValid(m)
  {
    var m := [if f.E == 1.0 then 'E' else 'I', if f.N == 1.0 then 'N' else 'S',
              if f.Tm == 1.0 then 'T' else 'F', if f.J == 1.0 then 'J' else 'P'];
    MbtiType.ValidIffInAlphabets(m);
    m
  }

  /** The love-type code a flag record stands for. */
  function LoveOf(f: Flags): (l: string)
    ensures LoveType.IsValid(l)
  {
    var l := [if f.L == 1.0 then 'L' else 'F', if f.C == 1.0 then 'C' else 'A',
              if f.R == 1.0 then 'R' else 'P', if f.O == 1.0 then 'O' else 'E'];
    LoveType.ValidIffInAlphabets(l);
    l
  }

  /** Decoding inverts the encoder on listed codes ... */
  lemma DecodeEncode(mbti: string, loveType: string)
    requires MbtiType.IsValid(mbti) && LoveType.IsValid(loveType)
    ensures MbtiOf(GetFlags(mbti, loveType)) == mbti
    ensures LoveOf(GetFlags(mbti, loveType)) == loveType
  {
    var f := GetFlags(mbti, loveType);
    MbtiType.ValidIffInAlphabets(mbti);
    LoveType.ValidIffInAlphabets(loveType);
    MbtiDecodeEncode(mbti, f);
    LoveDecodeEncode(loveType, f);
  }

  lemma MbtiDecodeEncode(mbti: string, f: Flags)
    requires MbtiType.InAlphabets(mbti) && MbtiPart(f) == ParseMbti(mbti)
    ensures MbtiOf(f) == mbti
  {
    assert mbti == [mbti[0], mbti[1], mbti[2], mbti[3]];
  }

  lemma LoveDecodeEncode(loveType: string, f: Flags)
    requires LoveType.InAlphabets(loveType) && LovePart(f) == ParseLoveType(loveType)
    ensures LoveOf(f) == loveType
  {
    assert loveType == [loveType[0], loveType[1], loveType[2], loveType[3]];
  }

  /** ... and the encoder inverts decoding on legal flags, so the encoder is a
      bijection between the 256 listed pairs and the legal flag records. */
  lemma EncodeDecode(f: Flags)
    requires Legal(f)
    ensures GetFlags(MbtiOf(f), LoveOf(f)) == f
  {
    MbtiEncodeDecode(f);
    LoveEncodeDecode(f);
    HalvesDetermine(GetFlags(MbtiOf(f), LoveOf(f)), f);
  }

  lemma MbtiEncodeDecode(f: Flags)
    requires f.E + f.I == 1.0 && f.N + f.S == 1.0 && f.Tm + f.Fm == 1.0 && f.J + f.Pm == 1.0
    ensures ParseMbti(MbtiOf(f)) == MbtiPart(f)
  {
    var m := MbtiOf(f);
    MbtiType.ValidIffInAlphabets(m);
    MbtiType.ShapeChars(m);
    UpperUnchanged(m);
  }

  lemma LoveEncodeDecode(f: Flags)
    requires f.L + f.Fl == 1.0 && f.C + f.A == 1.0 && f.R + f.Pl == 1.0 && f.O + f.El == 1.0
    ensures ParseLoveType(LoveOf(f)) == LovePart(f)
  {
    var l := LoveOf(f);
    LoveType.ValidIffInAlphabets(l);
    LoveType.ShapeChars(l);
    UpperUnchanged(l);
  }

  /** Distinct listed code pairs give distinct flag records. */
  lemma Injective(m1: string, l1: string, m2: string, l2: string)
    requires MbtiType.IsValid(m1) && LoveType.IsValid(l1)
    requires MbtiType.IsValid(m2) && LoveType.IsValid(l2)
    requires GetFlags(m1, l1) == GetFlags(m2, l2)
    ensures m1 == m2 && l1 == l2
  {
    DecodeEncode(m1, l1);
    DecodeEncode(m2, l2);
  }

  /** For codes spelt from the axis letters (the listed codes, by
      `ValidIffInAlphabets`) no case folding happens: each flag tests the
      code's own letter. */
  lemma ListedFlags(mbti: string, loveType: string)
    requires MbtiType.InAlphabets(mbti) && LoveType.InAlphabets(loveType)
    ensures GetFlags(mbti, loveType) == Flags(
      E := Flag(mbti[0] == 'E'), I := Flag(mbti[0] == 'I'),
      N := Flag(mbti[1] == 'N'), S := Flag(mbti[1] == 'S'),
      Fm := Flag(mbti[2] == 'F'), Tm := Flag(mbti[2] == 'T'),
      J := Flag(mbti[3] == 'J'), Pm := Flag(mbti[3] == 'P'),
      L := Flag(loveType[0] == 'L'), Fl := Flag(loveType[0] == 'F'),
      C := Flag(loveType[1] == 'C'), A := Flag(loveType[1] == 'A'),
      R := Flag(loveType[2] == 'R'), Pl := Flag(loveType[2] == 'P'),
      O := Flag(loveType[3] == 'O'), El := Flag(loveType[3] == 'E'))
  {
  }

  /** The example pair of the encoder's documentation. */
  lemma EnfjFareFlags()
    ensures GetFlags("ENFJ", "FARE") == Flags(
      E := 1.0, I := 0.0, N := 1.0, S := 0.0, Fm := 1.0, Tm := 0.0, J := 1.0, Pm := 0.0,
      L := 0.0, Fl := 1.0, C := 0.0, A := 1.0, R := 1.0, Pl := 0.0, O := 0.0, El := 1.0)
  {
    ListedFlags("ENFJ", "FARE");
  }

  lemma IntjLcroFlags()
    ensures GetFlags("INTJ", "LCRO") == Flags(
      E := 0.0, I := 1.0, N := 1.0, S := 0.0, Fm := 0.0, Tm := 1.0, J := 1.0, Pm := 0.0,
      L := 1.0, Fl := 0.0, C := 1.0, A := 0.0, R := 1.0, Pl := 0.0, O := 1.0, El := 0.0)
  {
    ListedFlags("INTJ", "LCRO");
  }

  lemma EsfpFapeFlags()
    ensures GetFlags("ESFP", "FAPE") == Flags(
      E := 1.0, I := 0.0, N := 0.0, S := 1.0, Fm := 1.0, Tm := 0.0, J := 0.0, Pm := 1.0,
      L := 0.0, Fl := 1.0, C := 0.0, A := 1.0, R := 0.0, Pl := 1.0, O := 0.0, El := 1.0)
  {
    ListedFlags("ESFP", "FAPE");
  }

  lemma EsfpFcroFlags()
    ensures GetFlags("ESFP", "FCRO") == Flags(
      E := 1.0, I := 0.0, N := 0.0, S := 1.0, Fm := 1.0, Tm := 0.0, J := 0.0, Pm := 1.0,
      L := 0.0, Fl := 1.0, C := 1.0, A := 0.0, R := 1.0, Pl := 0.0, O := 1.0, El := 0.0)
  {
    ListedFlags("ESFP", "FCRO");
  }

  lemma EsfpLcpeFlags()
    ensures GetFlags("ESFP", "LCPE") == Flags(
      E := 1.0, I := 0.0, N := 0.0, S := 1.0, Fm := 1.0, Tm := 0.0, J := 0.0, Pm := 1.0,
      L := 1.0, Fl := 0.0, C := 1.0, A := 0.0, R := 0.0, Pl := 1.0, O := 0.0, El := 1.0)
  {
    ListedFlags("ESFP", "LCPE");
  }

  lemma IntjFapeFlags()
    ensures GetFlags("INTJ", "FAPE") == Flags(
      E := 0.0, I := 1.0, N := 1.0, S := 0.0, Fm := 0.0, Tm := 1.0, J := 1.0, Pm := 0.0,
      L := 0.0, Fl := 1.0, C := 0.0, A := 1.0, R := 0.0, Pl := 1.0, O := 0.0, El := 1.0)
  {
    ListedFlags("INTJ", "FAPE");
  }

  lemma InfjLcroFlags()
    ensures GetFlags("INFJ", "LCRO") == Flags(
      E := 0.0, I := 1.0, N := 1.0, S := 0.0, Fm := 1.0, Tm := 0.0, J := 1.0, Pm := 0.0,
      L := 1.0, Fl := 0.0, C := 1.0, A := 0.0, R := 1.0, Pl := 0.0, O := 1.0, El := 0.0)
  {
    ListedFlags("INFJ", "LCRO");
  }
}
