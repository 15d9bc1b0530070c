/**
 * The ingredient lexicon of the `extract-ingredients` route: the ordered list
 * of keywords the route scans for, and the table from keyword to canonical
 * ingredient name. Both are transcribed in source order. Each is split into
 * the sections the source's comments mark, further cut so that no constant
 * holds more than about thirty entries; `Keywords` is their concatenation
 * and `Mapping` their union (no key occurs in two sections).
 */
module Lexicon {

  /** Compound ingredients, first part (src/index.tsx:392-399). */
  const CompoundKeywordsA: seq<string> := [
    "코엔자임q10", "coenzyme q10", "coq10", "코큐텐",
    "히알루론산", "히알루론", "hyaluronic acid", "hyaluronic",
    "세인트존스워트", "st john's wort", "st johns wort",
    "b컴플렉스", "b complex", "b-complex",
    "종합비타민", "멀티비타민", "multivitamin", "multi vitamin",
    "글루코사민", "glucosamine",
    "콘드로이틴", "chondroitin",
    "프로바이오틱스", "probiotics", "probiotic"
  ]

  /** Compound ingredients, second part (src/index.tsx:400-406). */
  const CompoundKeywordsB: seq<string> := [
    "프로폴리스", "propolis",
    "에키네시아", "echinacea",
    "베타카로틴", "beta carotene", "betacarotene",
    "지아잔틴", "zeaxanthin",
    "발레리안", "valerian",
    "멜라토닌", "melatonin",
    "피크노제놀", "pycnogenol"
  ]

  /** Single B vitamins, then the generic B group (src/index.tsx:408-414). */
  const BVitaminKeywords: seq<string> := [
    "비타민 b12", "vitamin b12", "b12",
    "비타민 b6", "vitamin b6", "b6",
    "비타민 b1", "vitamin b1", "b1",
    "비타민 b2", "vitamin b2", "b2",
    "비타민 b3", "vitamin b3", "b3",
    "비타민 b5", "vitamin b5", "b5",
    "비타민b", "비타민 b", "vitamin b", "b군", "b-군"
  ]

  /** Vitamins C, D, E, A and K (src/index.tsx:415-419). */
  const VitaminKeywords: seq<string> := [
    "비타민c", "비타민 c", "vitamin c", "vit c", "vitc",
    "비타민d", "비타민 d", "vitamin d", "vit d", "vitd",
    "비타민e", "비타민 e", "vitamin e", "vit e", "vite",
    "비타민a", "비타민 a", "vitamin a", "vit a", "vita",
    "비타민k", "비타민 k", "vitamin k"
  ]

  /** Minerals, including the unmapped element symbols (src/index.tsx:421-426). */
  const MineralKeywords: seq<string> := [
    "마그네슘", "magnesium", "mg",
    "칼슘", "calcium", "ca",
    "철분", "iron", "철", "fe",
    "아연", "zinc", "zn",
    "구리", "copper",
    "셀레늄", "selenium"
  ]

  /** Omega fatty acids (src/index.tsx:428-430). */
  const OmegaKeywords: seq<string> := [
    "오메가-3", "omega-3", "omega 3", "오메가3",
    "오메가6", "omega-6", "omega 6",
    "dha", "epa"
  ]

  /** Other ingredients (src/index.tsx:432-444). */
  const OtherKeywords: seq<string> := [
    "루테인", "lutein",
    "유산균", "락토",
    "콜라겐", "collagen",
    "커큐민", "강황", "curcumin", "turmeric",
    "테아닌", "theanine", "l-theanine",
    "비오틴", "biotin",
    "엽산", "folic acid", "folate",
    "은행잎", "ginkgo biloba", "ginkgo",
    "인삼", "ginseng",
    "마카", "maca",
    "msm",
    "알파리포산", "alpha lipoic acid", "ala",
    "레스베라트롤", "resveratrol"
  ]


  /** The keywords in scan order (src/index.tsx:390-445). */
  const Keywords: seq<string> :=
    CompoundKeywordsA + CompoundKeywordsB + BVitaminKeywords + VitaminKeywords +
    MineralKeywords + OmegaKeywords + OtherKeywords


  /** Vitamins C, D, E, A and K (src/index.tsx:450-454). */
  const VitaminMapping: map<string, string> := map[
    "비타민c" := "비타민C", "비타민 c" := "비타민C", "vitamin c" := "비타민C", "vit c" := "비타민C", "vitc" := "비타민C",
    "비타민d" := "비타민D", "비타민 d" := "비타민D", "vitamin d" := "비타민D", "vit d" := "비타민D", "vitd" := "비타민D",
    "비타민e" := "비타민E", "비타민 e" := "비타민E", "vitamin e" := "비타민E", "vit e" := "비타민E", "vite" := "비타민E",
    "비타민a" := "비타민A", "비타민 a" := "비타민A", "vitamin a" := "비타민A", "vit a" := "비타민A", "vita" := "비타민A",
    "비타민k" := "비타민K", "비타민 k" := "비타민K", "vitamin k" := "비타민K"
  ]

  /** The B group and the single B vitamins (src/index.tsx:455-462). */
  const BVitaminMapping: map<string, string> := map[
    "비타민b" := "비타민B", "비타민 b" := "비타민B", "vitamin b" := "비타민B", "b군" := "비타민B", "b-군" := "비타민B",
    "b컴플렉스" := "비타민B", "b complex" := "비타민B", "b-complex" := "비타민B",
    "비타민 b12" := "비타민B12", "vitamin b12" := "비타민B12", "b12" := "비타민B12",
    "비타민 b6" := "비타민B6", "vitamin b6" := "비타민B6", "b6" := "비타민B6",
    "비타민 b1" := "비타민B1", "vitamin b1" := "비타민B1", "b1" := "비타민B1",
    "비타민 b2" := "비타민B2", "vitamin b2" := "비타민B2", "b2" := "비타민B2",
    "비타민 b3" := "비타민B3", "vitamin b3" := "비타민B3", "b3" := "비타민B3",
    "비타민 b5" := "비타민B5", "vitamin b5" := "비타민B5", "b5" := "비타민B5"
  ]

  /** Omega fatty acids (src/index.tsx:464-466). */
  const OmegaMapping: map<string, string> := map[
    "오메가3" := "오메가3", "오메가 3" := "오메가3", "omega 3" := "오메가3", "omega-3" := "오메가3", "오메가-3" := "오메가3",
    "오메가6" := "오메가6", "omega-6" := "오메가6", "omega 6" := "오메가6",
    "dha" := "오메가3", "epa" := "오메가3"
  ]

  /** Minerals (src/index.tsx:468-473). */
  const MineralMapping: map<string, string> := map[
    "마그네슘" := "마그네슘", "magnesium" := "마그네슘",
    "칼슘" := "칼슘", "calcium" := "칼슘",
    "철분" := "철분", "iron" := "철분", "철" := "철분",
    "아연" := "아연", "zinc" := "아연",
    "구리" := "구리", "copper" := "구리",
    "셀레늄" := "셀레늄", "selenium" := "셀레늄"
  ]

  /** Other ingredients, first part (src/index.tsx:475-485). */
  const OtherMappingA: map<string, string> := map[
    "글루코사민" := "글루코사민", "glucosamine" := "글루코사민",
    "콘드로이틴" := "콘드로이틴", "chondroitin" := "콘드로이틴",
    "루테인" := "루테인", "lutein" := "루테인",
    "지아잔틴" := "지아잔틴", "zeaxanthin" := "지아잔틴",
    "유산균" := "유산균", "락토" := "유산균",
    "프로바이오틱스" := "유산균", "probiotics" := "유산균", "probiotic" := "유산균",
    "프로폴리스" := "프로폴리스", "propolis" := "프로폴리스",
    "코엔자임q10" := "코엔자임Q10", "coenzyme q10" := "코엔자임Q10", "coq10" := "코엔자임Q10", "코큐텐" := "코엔자임Q10",
    "콜라겐" := "콜라겐", "collagen" := "콜라겐",
    "히알루론산" := "히알루론산", "히알루론" := "히알루론산", "hyaluronic" := "히알루론산", "hyaluronic acid" := "히알루론산",
    "커큐민" := "커큐민", "강황" := "커큐민", "curcumin" := "커큐민", "turmeric" := "커큐민"
  ]

  /** Other ingredients, second part (src/index.tsx:486-494). */
  const OtherMappingB: map<string, string> := map[
    "에키네시아" := "에키네시아", "echinacea" := "에키네시아",
    "멜라토닌" := "멜라토닌", "melatonin" := "멜라토닌",
    "테아닌" := "테아닌", "theanine" := "테아닌", "l-theanine" := "테아닌",
    "발레리안" := "발레리안", "valerian" := "발레리안",
    "비오틴" := "비오틴", "biotin" := "비오틴",
    "엽산" := "엽산", "folic acid" := "엽산", "folate" := "엽산",
    "종합비타민" := "종합비타민", "멀티비타민" := "종합비타민", "multivitamin" := "종합비타민", "multi vitamin" := "종합비타민",
    "은행잎" := "은행잎", "ginkgo" := "은행잎", "ginkgo biloba" := "은행잎",
    "인삼" := "인삼", "ginseng" := "인삼"
  ]

  /** Other ingredients, third part (src/index.tsx:495-501). */
  const OtherMappingC: map<string, string> := map[
    "마카" := "마카", "maca" := "마카",
    "베타카로틴" := "베타카로틴", "beta carotene" := "베타카로틴", "betacarotene" := "베타카로틴",
    "세인트존스워트" := "세인트존스워트", "st john's wort" := "세인트존스워트", "st johns wort" := "세인트존스워트",
    "피크노제놀" := "피크노제놀", "pycnogenol" := "피크노제놀",
    "msm" := "MSM",
    "알파리포산" := "알파리포산", "alpha lipoic acid" := "알파리포산", "ala" := "알파리포산",
    "레스베라트롤" := "레스베라트롤", "resveratrol" := "레스베라트롤"
  ]

  /** Keyword to canonical ingredient name (src/index.tsx:448-502). */
  const Mapping: map<string, string> :=
    VitaminMapping + BVitaminMapping + OmegaMapping + MineralMapping +
    OtherMappingA + OtherMappingB + OtherMappingC

  // ---------------------------------------------------------------------------
  // Facts about the lexicon. Each is established one section at a time: a
  // look-up in the union or a search of the concatenation then follows from
  // the sections' facts.

  lemma SymbolsNotInVitaminMappingPart1()
    ensures "mg" !in VitaminMapping && "ca" !in VitaminMapping && "fe" !in VitaminMapping
  {
  }

  lemma SymbolsNotInVitaminMappingPart2()
    ensures "zn" !in VitaminMapping
  {
  }

  lemma SymbolsNotInBVitaminMappingPart1()
    ensures "mg" !in BVitaminMapping && "ca" !in BVitaminMapping && "fe" !in BVitaminMapping
  {
  }

  lemma SymbolsNotInBVitaminMappingPart2()
    ensures "zn" !in BVitaminMapping
  {
  }

  lemma SymbolsNotInOmegaMapping()
    ensures "mg" !in OmegaMapping && "ca" !in OmegaMapping && "fe" !in OmegaMapping && "zn" !in OmegaMapping
  {
  }

  lemma SymbolsNotInMineralMapping()
    ensures "mg" !in MineralMapping && "ca" !in MineralMapping && "fe" !in MineralMapping && "zn" !in MineralMapping
  {
  }

  lemma SymbolsNotInOtherMappingAPart1()
    ensures "mg" !in OtherMappingA && "ca" !in OtherMappingA
  {
  }

  lemma SymbolsNotInOtherMappingAPart2()
    ensures "fe" !in OtherMappingA && "zn" !in OtherMappingA
  {
  }

  lemma SymbolsNotInOtherMappingBPart1()
    ensures "mg" !in OtherMappingB && "ca" !in OtherMappingB && "fe" !in OtherMappingB
  {
  }

  lemma SymbolsNotInOtherMappingBPart2()
    ensures "zn" !in OtherMappingB
  {
  }

  lemma SymbolsNotInOtherMappingC()
    ensures "mg" !in OtherMappingC && "ca" !in OtherMappingC && "fe" !in OtherMappingC && "zn" !in OtherMappingC
  {
  }

  /** The element symbol 'mg' has no entry. */
  lemma MgSymbolUnmapped()
    ensures "mg" !in Mapping
  {
    SymbolsNotInVitaminMappingPart1();
    SymbolsNotInVitaminMappingPart2();
    SymbolsNotInBVitaminMappingPart1();
    SymbolsNotInBVitaminMappingPart2();
    SymbolsNotInOmegaMapping();
    SymbolsNotInMineralMapping();
    SymbolsNotInOtherMappingAPart1();
    SymbolsNotInOtherMappingAPart2();
    SymbolsNotInOtherMappingBPart1();
    SymbolsNotInOtherMappingBPart2();
    SymbolsNotInOtherMappingC();
  }

  /** The element symbol 'ca' has no entry. */
  lemma CaSymbolUnmapped()
    ensures "ca" !in Mapping
  {
    SymbolsNotInVitaminMappingPart1();
    SymbolsNotInVitaminMappingPart2();
    SymbolsNotInBVitaminMappingPart1();
    SymbolsNotInBVitaminMappingPart2();
    SymbolsNotInOmegaMapping();
    SymbolsNotInMineralMapping();
    SymbolsNotInOtherMappingAPart1();
    SymbolsNotInOtherMappingAPart2();
    SymbolsNotInOtherMappingBPart1();
    SymbolsNotInOtherMappingBPart2();
    SymbolsNotInOtherMappingC();
  }

  /** The element symbol 'fe' has no entry. */
  lemma FeSymbolUnmapped()
    ensures "fe" !in Mapping
  {
    SymbolsNotInVitaminMappingPart1();
    SymbolsNotInVitaminMappingPart2();
    SymbolsNotInBVitaminMappingPart1();
    SymbolsNotInBVitaminMappingPart2();
    SymbolsNotInOmegaMapping();
    SymbolsNotInMineralMapping();
    SymbolsNotInOtherMappingAPart1();
    SymbolsNotInOtherMappingAPart2();
    SymbolsNotInOtherMappingBPart1();
    SymbolsNotInOtherMappingBPart2();
    SymbolsNotInOtherMappingC();
  }

  /** The element symbol 'zn' has no entry. */
  lemma ZnSymbolUnmapped()
    ensures "zn" !in Mapping
  {
    SymbolsNotInVitaminMappingPart1();
    SymbolsNotInVitaminMappingPart2();
    SymbolsNotInBVitaminMappingPart1();
    SymbolsNotInBVitaminMappingPart2();
    SymbolsNotInOmegaMapping();
    SymbolsNotInMineralMapping();
    SymbolsNotInOtherMappingAPart1();
    SymbolsNotInOtherMappingAPart2();
    SymbolsNotInOtherMappingBPart1();
    SymbolsNotInOtherMappingBPart2();
    SymbolsNotInOtherMappingC();
  }

  lemma ElementSymbolsScanned()
    ensures MineralKeywords[2] == "mg" && MineralKeywords[5] == "ca" && MineralKeywords[9] == "fe" && MineralKeywords[12] == "zn"
    ensures "mg" in Keywords && "ca" in Keywords && "fe" in Keywords && "zn" in Keywords
  {
    assert MineralKeywords[2] == "mg" && MineralKeywords[5] == "ca" && MineralKeywords[9] == "fe" && MineralKeywords[12] == "zn";
  }

  /**
   * The mineral keywords 'mg', 'ca', 'fe' and 'zn' are scanned but have no
   * entry in the table, so they never contribute a name.
   */
  lemma ElementSymbolsUnmapped(symbol: string)
    requires symbol == "mg" || symbol == "ca" || symbol == "fe" || symbol == "zn"
    ensures symbol in Keywords && symbol !in Mapping
  {
    ElementSymbolsScanned();
    if symbol == "mg" {
      MgSymbolUnmapped();
    } else if symbol == "ca" {
      CaSymbolUnmapped();
    } else if symbol == "fe" {
      FeSymbolUnmapped();
    } else {
      ZnSymbolUnmapped();
    }
  }

  lemma SpacedOmega3NotInCompoundKeywordsA()
    ensures "오메가 3" !in CompoundKeywordsA
  {
  }

  lemma SpacedOmega3NotInCompoundKeywordsB()
    ensures "오메가 3" !in CompoundKeywordsB
  {
  }

  lemma SpacedOmega3NotInBVitaminKeywords()
    ensures "오메가 3" !in BVitaminKeywords
  {
  }

  lemma SpacedOmega3NotInVitaminKeywords()
    ensures "오메가 3" !in VitaminKeywords
  {
  }

  lemma SpacedOmega3NotInMineralKeywords()
    ensures "오메가 3" !in MineralKeywords
  {
  }

  lemma SpacedOmega3NotInOmegaKeywords()
    ensures "오메가 3" !in OmegaKeywords
  {
  }

  lemma SpacedOmega3NotInOtherKeywords()
    ensures "오메가 3" !in OtherKeywords
  {
  }

  lemma SpacedOmega3NotInMineralMapping()
    ensures "오메가 3" !in MineralMapping
  {
  }

  lemma SpacedOmega3NotInOtherMappingA()
    ensures "오메가 3" !in OtherMappingA
  {
  }

  lemma SpacedOmega3NotInOtherMappingB()
    ensures "오메가 3" !in OtherMappingB
  {
  }

  lemma SpacedOmega3NotInOtherMappingC()
    ensures "오메가 3" !in OtherMappingC
  {
  }

  /** The table's key '오메가 3' is not a keyword. */
  lemma SpacedOmega3NotScanned()
    ensures "오메가 3" !in Keywords
  {
    SpacedOmega3NotInCompoundKeywordsA();
    SpacedOmega3NotInCompoundKeywordsB();
    SpacedOmega3NotInBVitaminKeywords();
    SpacedOmega3NotInVitaminKeywords();
    SpacedOmega3NotInMineralKeywords();
    SpacedOmega3NotInOmegaKeywords();
    SpacedOmega3NotInOtherKeywords();
  }

  /** The table's key '오메가 3' maps to 오메가3. */
  lemma SpacedOmega3Mapped()
    ensures "오메가 3" in Mapping && Mapping["오메가 3"] == "오메가3"
  {
    SpacedOmega3NotInMineralMapping();
    SpacedOmega3NotInOtherMappingA();
    SpacedOmega3NotInOtherMappingB();
    SpacedOmega3NotInOtherMappingC();
    SpacedOmega3InOmegaMapping();
  }

  lemma SpacedOmega3InOmegaMapping()
    ensures "오메가 3" in OmegaMapping && OmegaMapping["오메가 3"] == "오메가3"
  {
  }

  /** The entry for '오메가 3' exists but is never consulted, because the scan looks up only keywords. */
  lemma SpacedOmega3Unscanned()
    ensures "오메가 3" in Mapping && Mapping["오메가 3"] == "오메가3"
    ensures "오메가 3" !in Keywords
  {
    SpacedOmega3Mapped();
    SpacedOmega3NotScanned();
  }
}
