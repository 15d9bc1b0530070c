/**
 * The worked example of the `extract-ingredients` route: the product name
 * "비타민 B12" yields 비타민B12, 비타민B1 and 비타민B, because the keywords
 * '비타민 b1', 'b1' and '비타민 b' occur in it as well as '비타민 b12' and 'b12',
 * and no rule lets a longer match suppress a shorter one.
 *
 * The scan is evaluated section by section for an arbitrary table holding the
 * five entries the scan consults. For every keyword, a lemma of four keywords
 * at a time settles whether it occurs in the text, mostly by naming a
 * character of the keyword that the text lacks. The five entries are then
 * looked up in the lexicon section by section.
 */
module ExtractorExamples {
  import opened Seqs
  import opened Text
  import opened Lexicon
  import opened KeywordScan
  import opened Extractor

  /** The table entries the scan of "비타민 b12" consults, with the lexicon's values. */
  predicate B12Entries(table: map<string, string>) {
    "비타민 b12" in table && table["비타민 b12"] == "비타민B12" &&
    "b12" in table && table["b12"] == "비타민B12" &&
    "비타민 b1" in table && table["비타민 b1"] == "비타민B1" &&
    "b1" in table && table["b1"] == "비타민B1" &&
    "비타민 b" in table && table["비타민 b"] == "비타민B"
  }

  lemma B12KeysNotInOmegaMapping()
    ensures "비타민 b12" !in OmegaMapping && "b12" !in OmegaMapping && "비타민 b1" !in OmegaMapping && "b1" !in OmegaMapping && "비타민 b" !in OmegaMapping
  {
  }

  lemma B12KeysNotInMineralMapping()
    ensures "비타민 b12" !in MineralMapping && "b12" !in MineralMapping && "비타민 b1" !in MineralMapping && "b1" !in MineralMapping && "비타민 b" !in MineralMapping
  {
  }

  lemma B12KeysNotInOtherMappingAPart1()
    ensures "비타민 b12" !in OtherMappingA && "b12" !in OtherMappingA
  {
  }

  lemma B12KeysNotInOtherMappingAPart2()
    ensures "비타민 b1" !in OtherMappingA && "b1" !in OtherMappingA
  {
  }

  lemma B12KeysNotInOtherMappingAPart3()
    ensures "비타민 b" !in OtherMappingA
  {
  }

  lemma B12KeysNotInOtherMappingBPart1()
    ensures "비타민 b12" !in OtherMappingB && "b12" !in OtherMappingB && "비타민 b1" !in OtherMappingB
  {
  }

  lemma B12KeysNotInOtherMappingBPart2()
    ensures "b1" !in OtherMappingB && "비타민 b" !in OtherMappingB
  {
  }

  lemma B12KeysNotInOtherMappingC()
    ensures "비타민 b12" !in OtherMappingC && "b12" !in OtherMappingC && "비타민 b1" !in OtherMappingC && "b1" !in OtherMappingC && "비타민 b" !in OtherMappingC
  {
  }

  lemma B12KeysInBVitaminMapping()
    ensures "비타민 b12" in BVitaminMapping && BVitaminMapping["비타민 b12"] == "비타민B12" &&
      "b12" in BVitaminMapping && BVitaminMapping["b12"] == "비타민B12" &&
      "비타민 b1" in BVitaminMapping && BVitaminMapping["비타민 b1"] == "비타민B1" &&
      "b1" in BVitaminMapping && BVitaminMapping["b1"] == "비타민B1" &&
      "비타민 b" in BVitaminMapping && BVitaminMapping["비타민 b"] == "비타민B"
  {
  }

  lemma B12ScanCompoundAFrom0()
    ensures !Includes("비타민 b12", CompoundKeywordsA[0]) && !Includes("비타민 b12", CompoundKeywordsA[1]) && !Includes("비타민 b12", CompoundKeywordsA[2]) && !Includes("비타민 b12", CompoundKeywordsA[3])
  {
    assert CompoundKeywordsA[0] == "코엔자임q10";
    AbsentCharExcludes("비타민 b12", "코엔자임q10", 0);
    assert CompoundKeywordsA[1] == "coenzyme q10";
    assert CompoundKeywordsA[2] == "coq10";
    AbsentCharExcludes("비타민 b12", "coq10", 0);
    assert CompoundKeywordsA[3] == "코큐텐";
    AbsentCharExcludes("비타민 b12", "코큐텐", 0);
  }

  lemma B12ScanCompoundAFrom4()
    ensures !Includes("비타민 b12", CompoundKeywordsA[4]) && !Includes("비타민 b12", CompoundKeywordsA[5]) && !Includes("비타민 b12", CompoundKeywordsA[6]) && !Includes("비타민 b12", CompoundKeywordsA[7])
  {
    assert CompoundKeywordsA[4] == "히알루론산";
    AbsentCharExcludes("비타민 b12", "히알루론산", 0);
    assert CompoundKeywordsA[5] == "히알루론";
    AbsentCharExcludes("비타민 b12", "히알루론", 0);
    assert CompoundKeywordsA[6] == "hyaluronic acid";
    assert CompoundKeywordsA[7] == "hyaluronic";
  }

  lemma B12ScanCompoundAFrom8()
    ensures !Includes("비타민 b12", CompoundKeywordsA[8]) && !Includes("비타민 b12", CompoundKeywordsA[9]) && !Includes("비타민 b12", CompoundKeywordsA[10]) && !Includes("비타민 b12", CompoundKeywordsA[11])
  {
    assert CompoundKeywordsA[8] == "세인트존스워트";
    AbsentCharExcludes("비타민 b12", "세인트존스워트", 0);
    assert CompoundKeywordsA[9] == "st john's wort";
    assert CompoundKeywordsA[10] == "st johns wort";
    assert CompoundKeywordsA[11] == "b컴플렉스";
    AbsentCharExcludes("비타민 b12", "b컴플렉스", 1);
  }

  lemma B12ScanCompoundAFrom12()
    ensures !Includes("비타민 b12", CompoundKeywordsA[12]) && !Includes("비타민 b12", CompoundKeywordsA[13]) && !Includes("비타민 b12", CompoundKeywordsA[14]) && !Includes("비타민 b12", CompoundKeywordsA[15])
  {
    assert CompoundKeywordsA[12] == "b complex";
    assert CompoundKeywordsA[13] == "b-complex";
    assert CompoundKeywordsA[14] == "종합비타민";
    AbsentCharExcludes("비타민 b12", "종합비타민", 0);
    assert CompoundKeywordsA[15] == "멀티비타민";
    AbsentCharExcludes("비타민 b12", "멀티비타민", 0);
  }

  lemma B12ScanCompoundAFrom16()
    ensures !Includes("비타민 b12", CompoundKeywordsA[16]) && !Includes("비타민 b12", CompoundKeywordsA[17]) && !Includes("비타민 b12", CompoundKeywordsA[18]) && !Includes("비타민 b12", CompoundKeywordsA[19])
  {
    assert CompoundKeywordsA[16] == "multivitamin";
    assert CompoundKeywordsA[17] == "multi vitamin";
    assert CompoundKeywordsA[18] == "글루코사민";
    AbsentCharExcludes("비타민 b12", "글루코사민", 0);
    assert CompoundKeywordsA[19] == "glucosamine";
  }

  lemma B12ScanCompoundAFrom20()
    ensures !Includes("비타민 b12", CompoundKeywordsA[20]) && !Includes("비타민 b12", CompoundKeywordsA[21]) && !Includes("비타민 b12", CompoundKeywordsA[22]) && !Includes("비타민 b12", CompoundKeywordsA[23])
  {
    assert CompoundKeywordsA[20] == "콘드로이틴";
    AbsentCharExcludes("비타민 b12", "콘드로이틴", 0);
    assert CompoundKeywordsA[21] == "chondroitin";
    assert CompoundKeywordsA[22] == "프로바이오틱스";
    AbsentCharExcludes("비타민 b12", "프로바이오틱스", 0);
    assert CompoundKeywordsA[23] == "probiotics";
  }

  lemma B12ScanCompoundAFrom24()
    ensures !Includes("비타민 b12", CompoundKeywordsA[24])
  {
    assert CompoundKeywordsA[24] == "probiotic";
  }

  lemma ScanB12CompoundA(table: map<string, string>)
    ensures ScanHits(table, CompoundKeywordsA, "비타민 b12", |CompoundKeywordsA|) == []
  {
    B12ScanCompoundAFrom0();
    B12ScanCompoundAFrom4();
    B12ScanCompoundAFrom8();
    B12ScanCompoundAFrom12();
    B12ScanCompoundAFrom16();
    B12ScanCompoundAFrom20();
    B12ScanCompoundAFrom24();
    ScanHitsMiss(table, CompoundKeywordsA, "비타민 b12", 0);
    ScanHitsMiss(table, CompoundKeywordsA, "비타민 b12", 1);
    ScanHitsMiss(table, CompoundKeywordsA, "비타민 b12", 2);
    ScanHitsMiss(table, CompoundKeywordsA, "비타민 b12", 3);
    ScanHitsMiss(table, CompoundKeywordsA, "비타민 b12", 4);
    ScanHitsMiss(table, CompoundKeywordsA, "비타민 b12", 5);
    ScanHitsMiss(table, CompoundKeywordsA, "비타민 b12", 6);
    ScanHitsMiss(table, CompoundKeywordsA, "비타민 b12", 7);
    ScanHitsMiss(table, CompoundKeywordsA, "비타민 b12", 8);
    ScanHitsMiss(table, CompoundKeywordsA, "비타민 b12", 9);
    ScanHitsMiss(table, CompoundKeywordsA, "비타민 b12", 10);
    ScanHitsMiss(table, CompoundKeywordsA, "비타민 b12", 11);
    ScanHitsMiss(table, CompoundKeywordsA, "비타민 b12", 12);
    ScanHitsMiss(table, CompoundKeywordsA, "비타민 b12", 13);
    ScanHitsMiss(table, CompoundKeywordsA, "비타민 b12", 14);
    ScanHitsMiss(table, CompoundKeywordsA, "비타민 b12", 15);
    ScanHitsMiss(table, CompoundKeywordsA, "비타민 b12", 16);
    ScanHitsMiss(table, CompoundKeywordsA, "비타민 b12", 17);
    ScanHitsMiss(table, CompoundKeywordsA, "비타민 b12", 18);
    ScanHitsMiss(table, CompoundKeywordsA, "비타민 b12", 19);
    ScanHitsMiss(table, CompoundKeywordsA, "비타민 b12", 20);
    ScanHitsMiss(table, CompoundKeywordsA, "비타민 b12", 21);
    ScanHitsMiss(table, CompoundKeywordsA, "비타민 b12", 22);
    ScanHitsMiss(table, CompoundKeywordsA, "비타민 b12", 23);
    ScanHitsMiss(table, CompoundKeywordsA, "비타민 b12", 24);
  }

  lemma B12ScanCompoundBFrom0()
    ensures !Includes("비타민 b12", CompoundKeywordsB[0]) && !Includes("비타민 b12", CompoundKeywordsB[1]) && !Includes("비타민 b12", CompoundKeywordsB[2]) && !Includes("비타민 b12", CompoundKeywordsB[3])
  {
    assert CompoundKeywordsB[0] == "프로폴리스";
    AbsentCharExcludes("비타민 b12", "프로폴리스", 0);
    assert CompoundKeywordsB[1] == "propolis";
    assert CompoundKeywordsB[2] == "에키네시아";
    AbsentCharExcludes("비타민 b12", "에키네시아", 0);
    assert CompoundKeywordsB[3] == "echinacea";
  }

  lemma B12ScanCompoundBFrom4()
    ensures !Includes("비타민 b12", CompoundKeywordsB[4]) && !Includes("비타민 b12", CompoundKeywordsB[5]) && !Includes("비타민 b12", CompoundKeywordsB[6]) && !Includes("비타민 b12", CompoundKeywordsB[7])
  {
    assert CompoundKeywordsB[4] == "베타카로틴";
    AbsentCharExcludes("비타민 b12", "베타카로틴", 0);
    assert CompoundKeywordsB[5] == "beta carotene";
    assert CompoundKeywordsB[6] == "betacarotene";
    assert CompoundKeywordsB[7] == "지아잔틴";
    AbsentCharExcludes("비타민 b12", "지아잔틴", 0);
  }

  lemma B12ScanCompoundBFrom8()
    ensures !Includes("비타민 b12", CompoundKeywordsB[8]) && !Includes("비타민 b12", CompoundKeywordsB[9]) && !Includes("비타민 b12", CompoundKeywordsB[10]) && !Includes("비타민 b12", CompoundKeywordsB[11])
  {
    assert CompoundKeywordsB[8] == "zeaxanthin";
    assert CompoundKeywordsB[9] == "발레리안";
    AbsentCharExcludes("비타민 b12", "발레리안", 0);
    assert CompoundKeywordsB[10] == "valerian";
    assert CompoundKeywordsB[11] == "멜라토닌";
    AbsentCharExcludes("비타민 b12", "멜라토닌", 0);
  }

  lemma B12ScanCompoundBFrom12()
    ensures !Includes("비타민 b12", CompoundKeywordsB[12]) && !Includes("비타민 b12", CompoundKeywordsB[13]) && !Includes("비타민 b12", CompoundKeywordsB[14])
  {
    assert CompoundKeywordsB[12] == "melatonin";
    assert CompoundKeywordsB[13] == "피크노제놀";
    AbsentCharExcludes("비타민 b12", "피크노제놀", 0);
    assert CompoundKeywordsB[14] == "pycnogenol";
  }

  lemma ScanB12CompoundB(table: map<string, string>)
    ensures ScanHits(table, CompoundKeywordsB, "비타민 b12", |CompoundKeywordsB|) == []
  {
    B12ScanCompoundBFrom0();
    B12ScanCompoundBFrom4();
    B12ScanCompoundBFrom8();
    B12ScanCompoundBFrom12();
    ScanHitsMiss(table, CompoundKeywordsB, "비타민 b12", 0);
    ScanHitsMiss(table, CompoundKeywordsB, "비타민 b12", 1);
    ScanHitsMiss(table, CompoundKeywordsB, "비타민 b12", 2);
    ScanHitsMiss(table, CompoundKeywordsB, "비타민 b12", 3);
    ScanHitsMiss(table, CompoundKeywordsB, "비타민 b12", 4);
    ScanHitsMiss(table, CompoundKeywordsB, "비타민 b12", 5);
    ScanHitsMiss(table, CompoundKeywordsB, "비타민 b12", 6);
    ScanHitsMiss(table, CompoundKeywordsB, "비타민 b12", 7);
    ScanHitsMiss(table, CompoundKeywordsB, "비타민 b12", 8);
    ScanHitsMiss(table, CompoundKeywordsB, "비타민 b12", 9);
    ScanHitsMiss(table, CompoundKeywordsB, "비타민 b12", 10);
    ScanHitsMiss(table, CompoundKeywordsB, "비타민 b12", 11);
    ScanHitsMiss(table, CompoundKeywordsB, "비타민 b12", 12);
    ScanHitsMiss(table, CompoundKeywordsB, "비타민 b12", 13);
    ScanHitsMiss(table, CompoundKeywordsB, "비타민 b12", 14);
  }

  lemma B12ScanBVitaminFrom0()
    ensures BVitaminKeywords[0] == "비타민 b12" && Includes("비타민 b12", BVitaminKeywords[0]) && !Includes("비타민 b12", BVitaminKeywords[1]) && BVitaminKeywords[2] == "b12" && Includes("비타민 b12", BVitaminKeywords[2]) && !Includes("비타민 b12", BVitaminKeywords[3])
  {
    assert BVitaminKeywords[0] == "비타민 b12";
    assert BVitaminKeywords[1] == "vitamin b12";
    assert BVitaminKeywords[2] == "b12";
    assert BVitaminKeywords[3] == "비타민 b6";
    AbsentCharExcludes("비타민 b12", "비타민 b6", 5);
  }

  lemma B12ScanBVitaminFrom4()
    ensures !Includes("비타민 b12", BVitaminKeywords[4]) && !Includes("비타민 b12", BVitaminKeywords[5]) && BVitaminKeywords[6] == "비타민 b1" && Includes("비타민 b12", BVitaminKeywords[6]) && !Includes("비타민 b12", BVitaminKeywords[7])
  {
    assert BVitaminKeywords[4] == "vitamin b6";
    assert BVitaminKeywords[5] == "b6";
    AbsentCharExcludes("비타민 b12", "b6", 1);
    assert BVitaminKeywords[6] == "비타민 b1";
    assert BVitaminKeywords[7] == "vitamin b1";
  }

  lemma B12ScanBVitaminFrom8()
    ensures BVitaminKeywords[8] == "b1" && Includes("비타민 b12", BVitaminKeywords[8]) && !Includes("비타민 b12", BVitaminKeywords[9]) && !Includes("비타민 b12", BVitaminKeywords[10]) && !Includes("비타민 b12", BVitaminKeywords[11])
  {
    assert BVitaminKeywords[8] == "b1";
    assert BVitaminKeywords[9] == "비타민 b2";
    assert BVitaminKeywords[10] == "vitamin b2";
    assert BVitaminKeywords[11] == "b2";
  }

  lemma B12ScanBVitaminFrom12()
    ensures !Includes("비타민 b12", BVitaminKeywords[12]) && !Includes("비타민 b12", BVitaminKeywords[13]) && !Includes("비타민 b12", BVitaminKeywords[14]) && !Includes("비타민 b12", BVitaminKeywords[15])
  {
    assert BVitaminKeywords[12] == "비타민 b3";
    AbsentCharExcludes("비타민 b12", "비타민 b3", 5);
    assert BVitaminKeywords[13] == "vitamin b3";
    assert BVitaminKeywords[14] == "b3";
    AbsentCharExcludes("비타민 b12", "b3", 1);
    assert BVitaminKeywords[15] == "비타민 b5";
    AbsentCharExcludes("비타민 b12", "비타민 b5", 5);
  }

  lemma B12ScanBVitaminFrom16()
    ensures !Includes("비타민 b12", BVitaminKeywords[16]) && !Includes("비타민 b12", BVitaminKeywords[17]) && !Includes("비타민 b12", BVitaminKeywords[18]) && BVitaminKeywords[19] == "비타민 b" && Includes("비타민 b12", BVitaminKeywords[19])
  {
    assert BVitaminKeywords[16] == "vitamin b5";
    assert BVitaminKeywords[17] == "b5";
    AbsentCharExcludes("비타민 b12", "b5", 1);
    assert BVitaminKeywords[18] == "비타민b";
    assert BVitaminKeywords[19] == "비타민 b";
  }

  lemma B12ScanBVitaminFrom20()
    ensures !Includes("비타민 b12", BVitaminKeywords[20]) && !Includes("비타민 b12", BVitaminKeywords[21]) && !Includes("비타민 b12", BVitaminKeywords[22])
  {
    assert BVitaminKeywords[20] == "vitamin b";
    assert BVitaminKeywords[21] == "b군";
    AbsentCharExcludes("비타민 b12", "b군", 1);
    assert BVitaminKeywords[22] == "b-군";
    AbsentCharExcludes("비타민 b12", "b-군", 1);
  }

  lemma ScanB12BVitaminThrough4(table: map<string, string>)
    requires B12Entries(table)
    ensures ScanHits(table, BVitaminKeywords, "비타민 b12", 4) == ["비타민B12", "비타민B12"]
  {
    B12ScanBVitaminFrom0();
    ScanHitsHit(table, BVitaminKeywords, "비타민 b12", 0);
    ScanHitsMiss(table, BVitaminKeywords, "비타민 b12", 1);
    ScanHitsHit(table, BVitaminKeywords, "비타민 b12", 2);
    ScanHitsMiss(table, BVitaminKeywords, "비타민 b12", 3);
  }

  lemma ScanB12BVitaminThrough8(table: map<string, string>)
    requires B12Entries(table)
    ensures ScanHits(table, BVitaminKeywords, "비타민 b12", 8) == ["비타민B12", "비타민B12", "비타민B1"]
  {
    ScanB12BVitaminThrough4(table);
    B12ScanBVitaminFrom4();
    ScanHitsMiss(table, BVitaminKeywords, "비타민 b12", 4);
    ScanHitsMiss(table, BVitaminKeywords, "비타민 b12", 5);
    ScanHitsHit(table, BVitaminKeywords, "비타민 b12", 6);
    ScanHitsMiss(table, BVitaminKeywords, "비타민 b12", 7);
  }

  lemma ScanB12BVitaminThrough12(table: map<string, string>)
    requires B12Entries(table)
    ensures ScanHits(table, BVitaminKeywords, "비타민 b12", 12) == ["비타민B12", "비타민B12", "비타민B1", "비타민B1"]
  {
    ScanB12BVitaminThrough8(table);
    B12ScanBVitaminFrom8();
    ScanHitsHit(table, BVitaminKeywords, "비타민 b12", 8);
    ScanHitsMiss(table, BVitaminKeywords, "비타민 b12", 9);
    ScanHitsMiss(table, BVitaminKeywords, "비타민 b12", 10);
    ScanHitsMiss(table, BVitaminKeywords, "비타민 b12", 11);
  }

  lemma ScanB12BVitaminThrough16(table: map<string, string>)
    requires B12Entries(table)
    ensures ScanHits(table, BVitaminKeywords, "비타민 b12", 16) == ["비타민B12", "비타민B12", "비타민B1", "비타민B1"]
  {
    ScanB12BVitaminThrough12(table);
    B12ScanBVitaminFrom12();
    ScanHitsMiss(table, BVitaminKeywords, "비타민 b12", 12);
    ScanHitsMiss(table, BVitaminKeywords, "비타민 b12", 13);
    ScanHitsMiss(table, BVitaminKeywords, "비타민 b12", 14);
    ScanHitsMiss(table, BVitaminKeywords, "비타민 b12", 15);
  }

  lemma ScanB12BVitaminThrough20(table: map<string, string>)
    requires B12Entries(table)
    ensures ScanHits(table, BVitaminKeywords, "비타민 b12", 20) == ["비타민B12", "비타민B12", "비타민B1", "비타민B1", "비타민B"]
  {
    ScanB12BVitaminThrough16(table);
    B12ScanBVitaminFrom16();
    ScanHitsMiss(table, BVitaminKeywords, "비타민 b12", 16);
    ScanHitsMiss(table, BVitaminKeywords, "비타민 b12", 17);
    ScanHitsMiss(table, BVitaminKeywords, "비타민 b12", 18);
    ScanHitsHit(table, BVitaminKeywords, "비타민 b12", 19);
  }

  lemma ScanB12BVitaminThrough23(table: map<string, string>)
    requires B12Entries(table)
    ensures ScanHits(table, BVitaminKeywords, "비타민 b12", 23) == ["비타민B12", "비타민B12", "비타민B1", "비타민B1", "비타민B"]
  {
    ScanB12BVitaminThrough20(table);
    B12ScanBVitaminFrom20();
    ScanHitsMiss(table, BVitaminKeywords, "비타민 b12", 20);
    ScanHitsMiss(table, BVitaminKeywords, "비타민 b12", 21);
    ScanHitsMiss(table, BVitaminKeywords, "비타민 b12", 22);
  }

  lemma ScanB12BVitamin(table: map<string, string>)
    requires B12Entries(table)
    ensures ScanHits(table, BVitaminKeywords, "비타민 b12", |BVitaminKeywords|) == ["비타민B12", "비타민B12", "비타민B1", "비타민B1", "비타민B"]
  {
    ScanB12BVitaminThrough23(table);
  }

  lemma B12ScanVitaminFrom0()
    ensures !Includes("비타민 b12", VitaminKeywords[0]) && !Includes("비타민 b12", VitaminKeywords[1]) && !Includes("비타민 b12", VitaminKeywords[2]) && !Includes("비타민 b12", VitaminKeywords[3])
  {
    assert VitaminKeywords[0] == "비타민c";
    AbsentCharExcludes("비타민 b12", "비타민c", 3);
    assert VitaminKeywords[1] == "비타민 c";
    AbsentCharExcludes("비타민 b12", "비타민 c", 4);
    assert VitaminKeywords[2] == "vitamin c";
    assert VitaminKeywords[3] == "vit c";
    AbsentCharExcludes("비타민 b12", "vit c", 0);
  }

  lemma B12ScanVitaminFrom4()
    ensures !Includes("비타민 b12", VitaminKeywords[4]) && !Includes("비타민 b12", VitaminKeywords[5]) && !Includes("비타민 b12", VitaminKeywords[6]) && !Includes("비타민 b12", VitaminKeywords[7])
  {
    assert VitaminKeywords[4] == "vitc";
    AbsentCharExcludes("비타민 b12", "vitc", 0);
    assert VitaminKeywords[5] == "비타민d";
    AbsentCharExcludes("비타민 b12", "비타민d", 3);
    assert VitaminKeywords[6] == "비타민 d";
    AbsentCharExcludes("비타민 b12", "비타민 d", 4);
    assert VitaminKeywords[7] == "vitamin d";
  }

  lemma B12ScanVitaminFrom8()
    ensures !Includes("비타민 b12", VitaminKeywords[8]) && !Includes("비타민 b12", VitaminKeywords[9]) && !Includes("비타민 b12", VitaminKeywords[10]) && !Includes("비타민 b12", VitaminKeywords[11])
  {
    assert VitaminKeywords[8] == "vit d";
    AbsentCharExcludes("비타민 b12", "vit d", 0);
    assert VitaminKeywords[9] == "vitd";
    AbsentCharExcludes("비타민 b12", "vitd", 0);
    assert VitaminKeywords[10] == "비타민e";
    AbsentCharExcludes("비타민 b12", "비타민e", 3);
    assert VitaminKeywords[11] == "비타민 e";
    AbsentCharExcludes("비타민 b12", "비타민 e", 4);
  }

  lemma B12ScanVitaminFrom12()
    ensures !Includes("비타민 b12", VitaminKeywords[12]) && !Includes("비타민 b12", VitaminKeywords[13]) && !Includes("비타민 b12", VitaminKeywords[14]) && !Includes("비타민 b12", VitaminKeywords[15])
  {
    assert VitaminKeywords[12] == "vitamin e";
    assert VitaminKeywords[13] == "vit e";
    AbsentCharExcludes("비타민 b12", "vit e", 0);
    assert VitaminKeywords[14] == "vite";
    AbsentCharExcludes("비타민 b12", "vite", 0);
    assert VitaminKeywords[15] == "비타민a";
    AbsentCharExcludes("비타민 b12", "비타민a", 3);
  }

  lemma B12ScanVitaminFrom16()
    ensures !Includes("비타민 b12", VitaminKeywords[16]) && !Includes("비타민 b12", VitaminKeywords[17]) && !Includes("비타민 b12", VitaminKeywords[18]) && !Includes("비타민 b12", VitaminKeywords[19])
  {
    assert VitaminKeywords[16] == "비타민 a";
    AbsentCharExcludes("비타민 b12", "비타민 a", 4);
    assert VitaminKeywords[17] == "vitamin a";
    assert VitaminKeywords[18] == "vit a";
    AbsentCharExcludes("비타민 b12", "vit a", 0);
    assert VitaminKeywords[19] == "vita";
    AbsentCharExcludes("비타민 b12", "vita", 0);
  }

  lemma B12ScanVitaminFrom20()
    ensures !Includes("비타민 b12", VitaminKeywords[20]) && !Includes("비타민 b12", VitaminKeywords[21]) && !Includes("비타민 b12", VitaminKeywords[22])
  {
    assert VitaminKeywords[20] == "비타민k";
    AbsentCharExcludes("비타민 b12", "비타민k", 3);
    assert VitaminKeywords[21] == "비타민 k";
    AbsentCharExcludes("비타민 b12", "비타민 k", 4);
    assert VitaminKeywords[22] == "vitamin k";
  }

  lemma ScanB12Vitamin(table: map<string, string>)
    ensures ScanHits(table, VitaminKeywords, "비타민 b12", |VitaminKeywords|) == []
  {
    B12ScanVitaminFrom0();
    B12ScanVitaminFrom4();
    B12ScanVitaminFrom8();
    B12ScanVitaminFrom12();
    B12ScanVitaminFrom16();
    B12ScanVitaminFrom20();
    ScanHitsMiss(table, VitaminKeywords, "비타민 b12", 0);
    ScanHitsMiss(table, VitaminKeywords, "비타민 b12", 1);
    ScanHitsMiss(table, VitaminKeywords, "비타민 b12", 2);
    ScanHitsMiss(table, VitaminKeywords, "비타민 b12", 3);
    ScanHitsMiss(table, VitaminKeywords, "비타민 b12", 4);
    ScanHitsMiss(table, VitaminKeywords, "비타민 b12", 5);
    ScanHitsMiss(table, VitaminKeywords, "비타민 b12", 6);
    ScanHitsMiss(table, VitaminKeywords, "비타민 b12", 7);
    ScanHitsMiss(table, VitaminKeywords, "비타민 b12", 8);
    ScanHitsMiss(table, VitaminKeywords, "비타민 b12", 9);
    ScanHitsMiss(table, VitaminKeywords, "비타민 b12", 10);
    ScanHitsMiss(table, VitaminKeywords, "비타민 b12", 11);
    ScanHitsMiss(table, VitaminKeywords, "비타민 b12", 12);
    ScanHitsMiss(table, VitaminKeywords, "비타민 b12", 13);
    ScanHitsMiss(table, VitaminKeywords, "비타민 b12", 14);
    ScanHitsMiss(table, VitaminKeywords, "비타민 b12", 15);
    ScanHitsMiss(table, VitaminKeywords, "비타민 b12", 16);
    ScanHitsMiss(table, VitaminKeywords, "비타민 b12", 17);
    ScanHitsMiss(table, VitaminKeywords, "비타민 b12", 18);
    ScanHitsMiss(table, VitaminKeywords, "비타민 b12", 19);
    ScanHitsMiss(table, VitaminKeywords, "비타민 b12", 20);
    ScanHitsMiss(table, VitaminKeywords, "비타민 b12", 21);
    ScanHitsMiss(table, VitaminKeywords, "비타민 b12", 22);
  }

  lemma B12ScanMineralFrom0()
    ensures !Includes("비타민 b12", MineralKeywords[0]) && !Includes("비타민 b12", MineralKeywords[1]) && !Includes("비타민 b12", MineralKeywords[2]) && !Includes("비타민 b12", MineralKeywords[3])
  {
    assert MineralKeywords[0] == "마그네슘";
    AbsentCharExcludes("비타민 b12", "마그네슘", 0);
    assert MineralKeywords[1] == "magnesium";
    assert MineralKeywords[2] == "mg";
    AbsentCharExcludes("비타민 b12", "mg", 0);
    assert MineralKeywords[3] == "칼슘";
    AbsentCharExcludes("비타민 b12", "칼슘", 0);
  }

  lemma B12ScanMineralFrom4()
    ensures !Includes("비타민 b12", MineralKeywords[4]) && !Includes("비타민 b12", MineralKeywords[5]) && !Includes("비타민 b12", MineralKeywords[6]) && !Includes("비타민 b12", MineralKeywords[7])
  {
    assert MineralKeywords[4] == "calcium";
    AbsentCharExcludes("비타민 b12", "calcium", 0);
    assert MineralKeywords[5] == "ca";
    AbsentCharExcludes("비타민 b12", "ca", 0);
    assert MineralKeywords[6] == "철분";
    AbsentCharExcludes("비타민 b12", "철분", 0);
    assert MineralKeywords[7] == "iron";
    AbsentCharExcludes("비타민 b12", "iron", 0);
  }

  lemma B12ScanMineralFrom8()
    ensures !Includes("비타민 b12", MineralKeywords[8]) && !Includes("비타민 b12", MineralKeywords[9]) && !Includes("비타민 b12", MineralKeywords[10]) && !Includes("비타민 b12", MineralKeywords[11])
  {
    assert MineralKeywords[8] == "철";
    AbsentCharExcludes("비타민 b12", "철", 0);
    assert MineralKeywords[9] == "fe";
    AbsentCharExcludes("비타민 b12", "fe", 0);
    assert MineralKeywords[10] == "아연";
    AbsentCharExcludes("비타민 b12", "아연", 0);
    assert MineralKeywords[11] == "zinc";
    AbsentCharExcludes("비타민 b12", "zinc", 0);
  }

  lemma B12ScanMineralFrom12()
    ensures !Includes("비타민 b12", MineralKeywords[12]) && !Includes("비타민 b12", MineralKeywords[13]) && !Includes("비타민 b12", MineralKeywords[14]) && !Includes("비타민 b12", MineralKeywords[15])
  {
    assert MineralKeywords[12] == "zn";
    AbsentCharExcludes("비타민 b12", "zn", 0);
    assert MineralKeywords[13] == "구리";
    AbsentCharExcludes("비타민 b12", "구리", 0);
    assert MineralKeywords[14] == "copper";
    AbsentCharExcludes("비타민 b12", "copper", 0);
    assert MineralKeywords[15] == "셀레늄";
    AbsentCharExcludes("비타민 b12", "셀레늄", 0);
  }

  lemma B12ScanMineralFrom16()
    ensures !Includes("비타민 b12", MineralKeywords[16])
  {
    assert MineralKeywords[16] == "selenium";
  }

  lemma ScanB12Mineral(table: map<string, string>)
    ensures ScanHits(table, MineralKeywords, "비타민 b12", |MineralKeywords|) == []
  {
    B12ScanMineralFrom0();
    B12ScanMineralFrom4();
    B12ScanMineralFrom8();
    B12ScanMineralFrom12();
    B12ScanMineralFrom16();
    ScanHitsMiss(table, MineralKeywords, "비타민 b12", 0);
    ScanHitsMiss(table, MineralKeywords, "비타민 b12", 1);
    ScanHitsMiss(table, MineralKeywords, "비타민 b12", 2);
    ScanHitsMiss(table, MineralKeywords, "비타민 b12", 3);
    ScanHitsMiss(table, MineralKeywords, "비타민 b12", 4);
    ScanHitsMiss(table, MineralKeywords, "비타민 b12", 5);
    ScanHitsMiss(table, MineralKeywords, "비타민 b12", 6);
    ScanHitsMiss(table, MineralKeywords, "비타민 b12", 7);
    ScanHitsMiss(table, MineralKeywords, "비타민 b12", 8);
    ScanHitsMiss(table, MineralKeywords, "비타민 b12", 9);
    ScanHitsMiss(table, MineralKeywords, "비타민 b12", 10);
    ScanHitsMiss(table, MineralKeywords, "비타민 b12", 11);
    ScanHitsMiss(table, MineralKeywords, "비타민 b12", 12);
    ScanHitsMiss(table, MineralKeywords, "비타민 b12", 13);
    ScanHitsMiss(table, MineralKeywords, "비타민 b12", 14);
    ScanHitsMiss(table, MineralKeywords, "비타민 b12", 15);
    ScanHitsMiss(table, MineralKeywords, "비타민 b12", 16);
  }

  lemma B12ScanOmegaFrom0()
    ensures !Includes("비타민 b12", OmegaKeywords[0]) && !Includes("비타민 b12", OmegaKeywords[1]) && !Includes("비타민 b12", OmegaKeywords[2]) && !Includes("비타민 b12", OmegaKeywords[3])
  {
    assert OmegaKeywords[0] == "오메가-3";
    AbsentCharExcludes("비타민 b12", "오메가-3", 0);
    assert OmegaKeywords[1] == "omega-3";
    AbsentCharExcludes("비타민 b12", "omega-3", 0);
    assert OmegaKeywords[2] == "omega 3";
    AbsentCharExcludes("비타민 b12", "omega 3", 0);
    assert OmegaKeywords[3] == "오메가3";
    AbsentCharExcludes("비타민 b12", "오메가3", 0);
  }

  lemma B12ScanOmegaFrom4()
    ensures !Includes("비타민 b12", OmegaKeywords[4]) && !Includes("비타민 b12", OmegaKeywords[5]) && !Includes("비타민 b12", OmegaKeywords[6]) && !Includes("비타민 b12", OmegaKeywords[7])
  {
    assert OmegaKeywords[4] == "오메가6";
    AbsentCharExcludes("비타민 b12", "오메가6", 0);
    assert OmegaKeywords[5] == "omega-6";
    AbsentCharExcludes("비타민 b12", "omega-6", 0);
    assert OmegaKeywords[6] == "omega 6";
    AbsentCharExcludes("비타민 b12", "omega 6", 0);
    assert OmegaKeywords[7] == "dha";
    AbsentCharExcludes("비타민 b12", "dha", 0);
  }

  lemma B12ScanOmegaFrom8()
    ensures !Includes("비타민 b12", OmegaKeywords[8])
  {
    assert OmegaKeywords[8] == "epa";
    AbsentCharExcludes("비타민 b12", "epa", 0);
  }

  lemma ScanB12Omega(table: map<string, string>)
    ensures ScanHits(table, OmegaKeywords, "비타민 b12", |OmegaKeywords|) == []
  {
    B12ScanOmegaFrom0();
    B12ScanOmegaFrom4();
    B12ScanOmegaFrom8();
    ScanHitsMiss(table, OmegaKeywords, "비타민 b12", 0);
    ScanHitsMiss(table, OmegaKeywords, "비타민 b12", 1);
    ScanHitsMiss(table, OmegaKeywords, "비타민 b12", 2);
    ScanHitsMiss(table, OmegaKeywords, "비타민 b12", 3);
    ScanHitsMiss(table, OmegaKeywords, "비타민 b12", 4);
    ScanHitsMiss(table, OmegaKeywords, "비타민 b12", 5);
    ScanHitsMiss(table, OmegaKeywords, "비타민 b12", 6);
    ScanHitsMiss(table, OmegaKeywords, "비타민 b12", 7);
    ScanHitsMiss(table, OmegaKeywords, "비타민 b12", 8);
  }

  lemma B12ScanOtherFrom0()
    ensures !Includes("비타민 b12", OtherKeywords[0]) && !Includes("비타민 b12", OtherKeywords[1]) && !Includes("비타민 b12", OtherKeywords[2]) && !Includes("비타민 b12", OtherKeywords[3])
  {
    assert OtherKeywords[0] == "루테인";
    AbsentCharExcludes("비타민 b12", "루테인", 0);
    assert OtherKeywords[1] == "lutein";
    AbsentCharExcludes("비타민 b12", "lutein", 0);
    assert OtherKeywords[2] == "유산균";
    AbsentCharExcludes("비타민 b12", "유산균", 0);
    assert OtherKeywords[3] == "락토";
    AbsentCharExcludes("비타민 b12", "락토", 0);
  }

  lemma B12ScanOtherFrom4()
    ensures !Includes("비타민 b12", OtherKeywords[4]) && !Includes("비타민 b12", OtherKeywords[5]) && !Includes("비타민 b12", OtherKeywords[6]) && !Includes("비타민 b12", OtherKeywords[7])
  {
    assert OtherKeywords[4] == "콜라겐";
    AbsentCharExcludes("비타민 b12", "콜라겐", 0);
    assert OtherKeywords[5] == "collagen";
    assert OtherKeywords[6] == "커큐민";
    AbsentCharExcludes("비타민 b12", "커큐민", 0);
    assert OtherKeywords[7] == "강황";
    AbsentCharExcludes("비타민 b12", "강황", 0);
  }

  lemma B12ScanOtherFrom8()
    ensures !Includes("비타민 b12", OtherKeywords[8]) && !Includes("비타민 b12", OtherKeywords[9]) && !Includes("비타민 b12", OtherKeywords[10]) && !Includes("비타민 b12", OtherKeywords[11])
  {
    assert OtherKeywords[8] == "curcumin";
    assert OtherKeywords[9] == "turmeric";
    assert OtherKeywords[10] == "테아닌";
    AbsentCharExcludes("비타민 b12", "테아닌", 0);
    assert OtherKeywords[11] == "theanine";
  }

  lemma B12ScanOtherFrom12()
    ensures !Includes("비타민 b12", OtherKeywords[12]) && !Includes("비타민 b12", OtherKeywords[13]) && !Includes("비타민 b12", OtherKeywords[14]) && !Includes("비타민 b12", OtherKeywords[15])
  {
    assert OtherKeywords[12] == "l-theanine";
    assert OtherKeywords[13] == "비오틴";
    AbsentCharExcludes("비타민 b12", "비오틴", 1);
    assert OtherKeywords[14] == "biotin";
    AbsentCharExcludes("비타민 b12", "biotin", 1);
    assert OtherKeywords[15] == "엽산";
    AbsentCharExcludes("비타민 b12", "엽산", 0);
  }

  lemma B12ScanOtherFrom16()
    ensures !Includes("비타민 b12", OtherKeywords[16]) && !Includes("비타민 b12", OtherKeywords[17]) && !Includes("비타민 b12", OtherKeywords[18]) && !Includes("비타민 b12", OtherKeywords[19])
  {
    assert OtherKeywords[16] == "folic acid";
    assert OtherKeywords[17] == "folate";
    AbsentCharExcludes("비타민 b12", "folate", 0);
    assert OtherKeywords[18] == "은행잎";
    AbsentCharExcludes("비타민 b12", "은행잎", 0);
    assert OtherKeywords[19] == "ginkgo biloba";
  }

  lemma B12ScanOtherFrom20()
    ensures !Includes("비타민 b12", OtherKeywords[20]) && !Includes("비타민 b12", OtherKeywords[21]) && !Includes("비타민 b12", OtherKeywords[22]) && !Includes("비타민 b12", OtherKeywords[23])
  {
    assert OtherKeywords[20] == "ginkgo";
    AbsentCharExcludes("비타민 b12", "ginkgo", 0);
    assert OtherKeywords[21] == "인삼";
    AbsentCharExcludes("비타민 b12", "인삼", 0);
    assert OtherKeywords[22] == "ginseng";
    AbsentCharExcludes("비타민 b12", "ginseng", 0);
    assert OtherKeywords[23] == "마카";
    AbsentCharExcludes("비타민 b12", "마카", 0);
  }

  lemma B12ScanOtherFrom24()
    ensures !Includes("비타민 b12", OtherKeywords[24]) && !Includes("비타민 b12", OtherKeywords[25]) && !Includes("비타민 b12", OtherKeywords[26]) && !Includes("비타민 b12", OtherKeywords[27])
  {
    assert OtherKeywords[24] == "maca";
    AbsentCharExcludes("비타민 b12", "maca", 0);
    assert OtherKeywords[25] == "msm";
    AbsentCharExcludes("비타민 b12", "msm", 0);
    assert OtherKeywords[26] == "알파리포산";
    AbsentCharExcludes("비타민 b12", "알파리포산", 0);
    assert OtherKeywords[27] == "alpha lipoic acid";
  }

  lemma B12ScanOtherFrom28()
    ensures !Includes("비타민 b12", OtherKeywords[28]) && !Includes("비타민 b12", OtherKeywords[29]) && !Includes("비타민 b12", OtherKeywords[30])
  {
    assert OtherKeywords[28] == "ala";
    AbsentCharExcludes("비타민 b12", "ala", 0);
    assert OtherKeywords[29] == "레스베라트롤";
    AbsentCharExcludes("비타민 b12", "레스베라트롤", 0);
    assert OtherKeywords[30] == "resveratrol";
  }

  lemma ScanB12Other(table: map<string, string>)
    ensures ScanHits(table, OtherKeywords, "비타민 b12", |OtherKeywords|) == []
  {
    B12ScanOtherFrom0();
    B12ScanOtherFrom4();
    B12ScanOtherFrom8();
    B12ScanOtherFrom12();
    B12ScanOtherFrom16();
    B12ScanOtherFrom20();
    B12ScanOtherFrom24();
    B12ScanOtherFrom28();
    ScanHitsMiss(table, OtherKeywords, "비타민 b12", 0);
    ScanHitsMiss(table, OtherKeywords, "비타민 b12", 1);
    ScanHitsMiss(table, OtherKeywords, "비타민 b12", 2);
    ScanHitsMiss(table, OtherKeywords, "비타민 b12", 3);
    ScanHitsMiss(table, OtherKeywords, "비타민 b12", 4);
    ScanHitsMiss(table, OtherKeywords, "비타민 b12", 5);
    ScanHitsMiss(table, OtherKeywords, "비타민 b12", 6);
    ScanHitsMiss(table, OtherKeywords, "비타민 b12", 7);
    ScanHitsMiss(table, OtherKeywords, "비타민 b12", 8);
    ScanHitsMiss(table, OtherKeywords, "비타민 b12", 9);
    ScanHitsMiss(table, OtherKeywords, "비타민 b12", 10);
    ScanHitsMiss(table, OtherKeywords, "비타민 b12", 11);
    ScanHitsMiss(table, OtherKeywords, "비타민 b12", 12);
    ScanHitsMiss(table, OtherKeywords, "비타민 b12", 13);
    ScanHitsMiss(table, OtherKeywords, "비타민 b12", 14);
    ScanHitsMiss(table, OtherKeywords, "비타민 b12", 15);
    ScanHitsMiss(table, OtherKeywords, "비타민 b12", 16);
    ScanHitsMiss(table, OtherKeywords, "비타민 b12", 17);
    ScanHitsMiss(table, OtherKeywords, "비타민 b12", 18);
    ScanHitsMiss(table, OtherKeywords, "비타민 b12", 19);
    ScanHitsMiss(table, OtherKeywords, "비타민 b12", 20);
    ScanHitsMiss(table, OtherKeywords, "비타민 b12", 21);
    ScanHitsMiss(table, OtherKeywords, "비타민 b12", 22);
    ScanHitsMiss(table, OtherKeywords, "비타민 b12", 23);
    ScanHitsMiss(table, OtherKeywords, "비타민 b12", 24);
    ScanHitsMiss(table, OtherKeywords, "비타민 b12", 25);
    ScanHitsMiss(table, OtherKeywords, "비타민 b12", 26);
    ScanHitsMiss(table, OtherKeywords, "비타민 b12", 27);
    ScanHitsMiss(table, OtherKeywords, "비타민 b12", 28);
    ScanHitsMiss(table, OtherKeywords, "비타민 b12", 29);
    ScanHitsMiss(table, OtherKeywords, "비타민 b12", 30);
  }

  /** The table as the lexicon defines it holds the entries the scan of "비타민 b12" consults. */
  lemma B12EntriesOfLexicon()
    ensures B12Entries(Mapping)
  {
    LookupKoreanB12();
    LookupB12();
    LookupKoreanB1();
    LookupB1();
    LookupKoreanB();
  }

  lemma LookupKoreanB12()
    ensures "비타민 b12" in Mapping && Mapping["비타민 b12"] == "비타민B12"
  {
    B12KeysNotInOmegaMapping();
    B12KeysNotInMineralMapping();
    B12KeysNotInOtherMappingAPart1();
    B12KeysNotInOtherMappingAPart2();
    B12KeysNotInOtherMappingAPart3();
    B12KeysNotInOtherMappingBPart1();
    B12KeysNotInOtherMappingBPart2();
    B12KeysNotInOtherMappingC();
    B12KeysInBVitaminMapping();
  }

  lemma LookupB12()
    ensures "b12" in Mapping && Mapping["b12"] == "비타민B12"
  {
    B12KeysNotInOmegaMapping();
    B12KeysNotInMineralMapping();
    B12KeysNotInOtherMappingAPart1();
    B12KeysNotInOtherMappingAPart2();
    B12KeysNotInOtherMappingAPart3();
    B12KeysNotInOtherMappingBPart1();
    B12KeysNotInOtherMappingBPart2();
    B12KeysNotInOtherMappingC();
    B12KeysInBVitaminMapping();
  }

  lemma LookupKoreanB1()
    ensures "비타민 b1" in Mapping && Mapping["비타민 b1"] == "비타민B1"
  {
    B12KeysNotInOmegaMapping();
    B12KeysNotInMineralMapping();
    B12KeysNotInOtherMappingAPart1();
    B12KeysNotInOtherMappingAPart2();
    B12KeysNotInOtherMappingAPart3();
    B12KeysNotInOtherMappingBPart1();
    B12KeysNotInOtherMappingBPart2();
    B12KeysNotInOtherMappingC();
    B12KeysInBVitaminMapping();
  }

  lemma LookupB1()
    ensures "b1" in Mapping && Mapping["b1"] == "비타민B1"
  {
    B12KeysNotInOmegaMapping();
    B12KeysNotInMineralMapping();
    B12KeysNotInOtherMappingAPart1();
    B12KeysNotInOtherMappingAPart2();
    B12KeysNotInOtherMappingAPart3();
    B12KeysNotInOtherMappingBPart1();
    B12KeysNotInOtherMappingBPart2();
    B12KeysNotInOtherMappingC();
    B12KeysInBVitaminMapping();
  }

  lemma LookupKoreanB()
    ensures "비타민 b" in Mapping && Mapping["비타민 b"] == "비타민B"
  {
    B12KeysNotInOmegaMapping();
    B12KeysNotInMineralMapping();
    B12KeysNotInOtherMappingAPart1();
    B12KeysNotInOtherMappingAPart2();
    B12KeysNotInOtherMappingAPart3();
    B12KeysNotInOtherMappingBPart1();
    B12KeysNotInOtherMappingBPart2();
    B12KeysNotInOtherMappingC();
    B12KeysInBVitaminMapping();
  }

  /** The scan of the whole keyword list is the scans of its sections, one after the other. */
  lemma ScanB12BySection(table: map<string, string>)
    ensures ScanHits(table, Keywords, "비타민 b12", |Keywords|) ==
      ScanHits(table, CompoundKeywordsA, "비타민 b12", |CompoundKeywordsA|) + ScanHits(table, CompoundKeywordsB, "비타민 b12", |CompoundKeywordsB|) +
      ScanHits(table, BVitaminKeywords, "비타민 b12", |BVitaminKeywords|) + ScanHits(table, VitaminKeywords, "비타민 b12", |VitaminKeywords|) +
      ScanHits(table, MineralKeywords, "비타민 b12", |MineralKeywords|) + ScanHits(table, OmegaKeywords, "비타민 b12", |OmegaKeywords|) +
      ScanHits(table, OtherKeywords, "비타민 b12", |OtherKeywords|)
  {
    ScanHitsConcat7(table, CompoundKeywordsA, CompoundKeywordsB, BVitaminKeywords, VitaminKeywords,
      MineralKeywords, OmegaKeywords, OtherKeywords, "비타민 b12");
  }

  /** Scanning "비타민 b12" with all the keywords: only the B-vitamin section contributes. */
  lemma ScanB12(table: map<string, string>)
    requires B12Entries(table)
    ensures ScanHits(table, Keywords, "비타민 b12", |Keywords|) == ["비타민B12", "비타민B12", "비타민B1", "비타민B1", "비타민B"]
  {
    ScanB12BySection(table);
    ScanB12CompoundA(table);
    ScanB12CompoundB(table);
    ScanB12BVitamin(table);
    ScanB12Vitamin(table);
    ScanB12Mineral(table);
    ScanB12Omega(table);
    ScanB12Other(table);
  }

  /** The de-duplication of the scan's contributions for this example, one contribution at a time. */
  lemma DedupB12Hits()
    ensures Dedup(["비타민B12", "비타민B12", "비타민B1", "비타민B1", "비타민B"]) == ["비타민B12", "비타민B1", "비타민B"]
  {
    DedupB12First();
    DedupB12Second();
    DedupB12Third();
    DedupB12Fourth();
    DedupSnoc(["비타민B12", "비타민B12", "비타민B1", "비타민B1"], "비타민B");
    assert ["비타민B12", "비타민B12", "비타민B1", "비타민B1"] + ["비타민B"] == ["비타민B12", "비타민B12", "비타민B1", "비타민B1", "비타민B"];
  }

  lemma DedupB12First()
    ensures Dedup(["비타민B12"]) == ["비타민B12"]
  {
    DedupSnoc([], "비타민B12");
    assert [] + ["비타민B12"] == ["비타민B12"];
  }

  lemma DedupB12Second()
    ensures Dedup(["비타민B12", "비타민B12"]) == ["비타민B12"]
  {
    DedupB12First();
    DedupSnoc(["비타민B12"], "비타민B12");
    assert ["비타민B12"] + ["비타민B12"] == ["비타민B12", "비타민B12"];
  }

  lemma DedupB12Third()
    ensures Dedup(["비타민B12", "비타민B12", "비타민B1"]) == ["비타민B12", "비타민B1"]
  {
    DedupB12Second();
    DedupSnoc(["비타민B12", "비타민B12"], "비타민B1");
    assert ["비타민B12", "비타민B12"] + ["비타민B1"] == ["비타민B12", "비타민B12", "비타민B1"];
  }

  lemma DedupB12Fourth()
    ensures Dedup(["비타민B12", "비타민B12", "비타민B1", "비타민B1"]) == ["비타민B12", "비타민B1"]
  {
    DedupB12Third();
    DedupSnoc(["비타민B12", "비타민B12", "비타민B1"], "비타민B1");
    assert ["비타민B12", "비타민B12", "비타민B1"] + ["비타민B1"] == ["비타민B12", "비타민B12", "비타민B1", "비타민B1"];
  }

  /** Lower-casing leaves the Hangul alone and turns 'B' into 'b'. */
  lemma LowerB12()
    ensures ToLower("비타민 B12") == "비타민 b12"
  {
    var r := ToLower("비타민 B12");
    assert |r| == 7 && r[4] == 'b';
  }

  /**
   * Overlapping keywords are not suppressed: "비타민 B12" yields exactly
   * 비타민B12, 비타민B1 and 비타민B, in keyword-list order.
   */
  lemma VitaminB12Example()
    ensures Extraction("비타민 B12") == ["비타민B12", "비타민B1", "비타민B"]
  {
    LowerB12();
    B12EntriesOfLexicon();
    ScanB12(Mapping);
    DedupB12Hits();
  }

  // ---------------------------------------------------------------------------
  // A second overlap: the abbreviation 'vita' (src/index.tsx:418) is a
  // substring of every English "vitamin ..." name, so each of them also
  // yields 비타민A.

  lemma VitaNotInBVitaminMapping()
    ensures "vita" !in BVitaminMapping
  {
  }

  lemma VitaNotInOmegaMapping()
    ensures "vita" !in OmegaMapping
  {
  }

  lemma VitaNotInMineralMapping()
    ensures "vita" !in MineralMapping
  {
  }

  lemma VitaNotInOtherMappingA()
    ensures "vita" !in OtherMappingA
  {
  }

  lemma VitaNotInOtherMappingB()
    ensures "vita" !in OtherMappingB
  {
  }

  lemma VitaNotInOtherMappingC()
    ensures "vita" !in OtherMappingC
  {
  }

  lemma VitaInVitaminMapping()
    ensures "vita" in VitaminMapping && VitaminMapping["vita"] == "비타민A"
  {
  }

  /** 'vita' is one of the scanned keywords. */
  lemma VitaScanned()
    ensures "vita" in Keywords
  {
    assert VitaminKeywords[19] == "vita";
    assert Keywords[|CompoundKeywordsA + CompoundKeywordsB + BVitaminKeywords| + 19] == "vita";
  }

  /** 'vita' maps to 비타민A: no later section of the table overrides it. */
  lemma VitaMapped()
    ensures "vita" in Mapping && Mapping["vita"] == "비타민A"
  {
    VitaInVitaminMapping();
    VitaNotInBVitaminMapping();
    VitaNotInOmegaMapping();
    VitaNotInMineralMapping();
    VitaNotInOtherMappingA();
    VitaNotInOtherMappingB();
    VitaNotInOtherMappingC();
  }

  /** Every product name whose lower-cased form contains 'vita' yields 비타민A. */
  lemma VitaYieldsVitaminA(productName: string)
    requires Includes(ToLower(productName), "vita")
    ensures "비타민A" in Extraction(productName)
  {
    VitaScanned();
    VitaMapped();
    FoundMembers(Mapping, Keywords, ToLower(productName));
    assert Produces(Mapping, "vita", ToLower(productName), "비타민A");
  }

  /** "Vitamin D" names vitamin D only, yet its extraction holds 비타민A. */
  lemma VitaminDExample()
    ensures "비타민A" in Extraction("Vitamin D")
  {
    var r := ToLower("Vitamin D");
    assert |r| == 9 && r[0] == 'v' && r[1] == 'i' && r[2] == 't' && r[3] == 'a';
    assert MatchesAt(r, "vita", 0, 0);
    VitaYieldsVitaminA("Vitamin D");
  }
}
