// Sector assignment from a stock's name: a fixed keyword table searched in order, and the
// update pass that writes the result into every stock row.
module Sectors {
  import opened Wrappers
  import opened Text

  /** The sector used when no keyword matches. */
  const Other: string := "기타"

  const SemiconductorKeywords: seq<string> := ["삼성전자", "SK하이닉스", "반도체", "SK스퀘어", "메모리", "파운드리", "실리콘"]
  const AutomotiveKeywords: seq<string> := ["현대차", "기아", "모빌리티", "자동차", "차량", "LG에너지솔루션"]
  const EnergyKeywords: seq<string> := ["전력", "에너지", "발전", "한전", "신재생"]

  /** The sector keyword table, in the order the search visits it. */
  const SectorKeywords: seq<(string, seq<string>)> := [
    ("반도체", SemiconductorKeywords),
    ("자동차", AutomotiveKeywords),
    ("바이오", ["바이오", "제약", "셀트리온", "의약", "헬스케어", "의료", "병원", "제닉"]),
    ("IT/소프트웨어", ["네이버", "NAVER", "카카오", "IT", "소프트웨어", "게임", "엔터", "JYP", "SM", "YG"]),
    ("금융", ["은행", "증권", "보험", "카드", "금융", "캐피탈", "저축은행", "KB금융", "신한지주", "하나금융"]),
    ("화학", ["LG화학", "화학", "석유화학", "정유", "케미칼"]),
    ("전자", ["전자", "디스플레이", "LG전자", "삼성SDI", "LG디스플레이"]),
    ("건설", ["건설", "부동산", "시공", "인프라"]),
    ("유통", ["쇼핑", "유통", "편의점", "백화점", "마트"]),
    ("식품", ["식품", "음료", "외식", "농심", "오리온", "CJ제일제당"]),
    ("통신", ["통신", "KT", "SKT", "LG유플러스"]),
    ("에너지", EnergyKeywords)
  ]

  /** The first sector of `table` with a keyword occurring in `name`. */
  function FirstSector(table: seq<(string, seq<string>)>, name: string): (s: Option<string>)
    ensures s.Some? ==> exists i :: 0 <= i < |table| && table[i].0 == s.value
  {
    if |table| == 0 then None
    else if AnyContained(name, table[0].1) then Some(table[0].0)
    else
      var s := FirstSector(table[1..], name);
      assert s.Some? ==> exists i :: 0 <= i < |table| && table[i].0 == s.value by {
        if s.Some? {
          var i :| 0 <= i < |table[1..]| && table[1..][i].0 == s.value;
          assert table[i + 1] == table[1..][i];
        }
      }
      s
  }

  /** `classify_sector`: (sector, sector) for the first matching sector, else (기타, 기타). */
  function ClassifySector(name: string): (r: (string, string))
    ensures r.0 == r.1
    ensures r.0 == Other || exists i :: 0 <= i < |SectorKeywords| && SectorKeywords[i].0 == r.0
  {
    match FirstSector(SectorKeywords, name)
    case Some(s) => (s, s)
    case None => (Other, Other)
  }

  /** The search picks the first sector that has a matching keyword. */
  lemma {:induction false} FirstSectorIsFirstMatch(table: seq<(string, seq<string>)>, name: string, i: nat)
    requires i < |table| && AnyContained(name, table[i].1)
    requires forall j :: 0 <= j < i ==> !AnyContained(name, table[j].1)
    ensures FirstSector(table, name) == Some(table[i].0)
  {
    if i > 0 {
      forall j | 0 <= j < i - 1 ensures !AnyContained(name, table[1..][j].1) {
        assert table[1..][j] == table[j + 1];
      }
      FirstSectorIsFirstMatch(table[1..], name, i - 1);
    }
  }

  /** Nothing is found exactly when no sector has a keyword in the name. */
  lemma {:induction false} FirstSectorNoneIff(table: seq<(string, seq<string>)>, name: string)
    ensures FirstSector(table, name).None? <==> forall j :: 0 <= j < |table| ==> !AnyContained(name, table[j].1)
  {
    if |table| > 0 {
      FirstSectorNoneIff(table[1..], name);
      if FirstSector(table, name).None? {
        forall j | 0 <= j < |table| ensures !AnyContained(name, table[j].1) {
          if j > 0 {
            assert table[1..][j - 1] == table[j];
          }
        }
      }
    }
  }

  /** A keyword whose first character is missing from the name does not occur in it. */
  lemma FirstCharMissing(name: string, key: string)
    requires |key| > 0 && key[0] !in name
    ensures !Contains(name, key)
  {
    forall i | 0 <= i <= |name| ensures !StartsWith(name[i..], key) {
      if i < |name| && |key| <= |name| - i {
        assert name[i..][..|key|][0] == name[i];
      }
    }
  }

  const LgEnergySolution: string := "LG에너지솔루션"

  /** No semiconductor keyword occurs in "LG에너지솔루션". */
  lemma NotSemiconductor()
    ensures !AnyContained(LgEnergySolution, SemiconductorKeywords)
  {
    var name := LgEnergySolution;
    var chip := SemiconductorKeywords;
    forall k | 0 <= k < |chip| ensures !Contains(name, chip[k]) {
      FirstCharMissing(name, chip[k]);
    }
    AnyContainedIff(name, chip);
  }

  /** The automotive list names the company itself. */
  lemma NamedAutomotive()
    ensures AnyContained(LgEnergySolution, AutomotiveKeywords)
  {
    ContainsAt(LgEnergySolution, LgEnergySolution, 0);
    assert AutomotiveKeywords[5] == LgEnergySolution;
    AnyContainedIff(LgEnergySolution, AutomotiveKeywords);
  }

  /** The name also holds an energy keyword. */
  lemma NamedEnergy()
    ensures AnyContained(LgEnergySolution, EnergyKeywords)
  {
    ContainsAt(LgEnergySolution, "에너지", 2);
    assert EnergyKeywords[1] == "에너지";
    AnyContainedIff(LgEnergySolution, EnergyKeywords);
  }

  /** Earlier sectors win: "LG에너지솔루션" matches the energy list, yet it is put in the
      automotive sector, whose list comes first and names the company. */
  lemma EarlierSectorWins()
    ensures AnyContained(LgEnergySolution, SectorKeywords[|SectorKeywords| - 1].1)
    ensures ClassifySector(LgEnergySolution) == ("자동차", "자동차")
  {
    TableEnds();
    NotSemiconductor();
    NamedAutomotive();
    NamedEnergy();
    SecondSectorWins(SectorKeywords, LgEnergySolution);
  }

  /** The first two sectors of the table and the last one. */
  lemma TableEnds()
    ensures |SectorKeywords| == 12
    ensures SectorKeywords[0].1 == SemiconductorKeywords
    ensures SectorKeywords[1] == ("자동차", AutomotiveKeywords)
    ensures SectorKeywords[11].1 == EnergyKeywords
  {
  }

  /** A name missed by the first sector and matched by the second gets the second. */
  lemma SecondSectorWins(table: seq<(string, seq<string>)>, name: string)
    requires |table| >= 2 && !AnyContained(name, table[0].1) && AnyContained(name, table[1].1)
    ensures FirstSector(table, name) == Some(table[1].0)
  {
    assert table[1..][0] == table[1];
  }

  /** One stock row: its name and the sector and industry columns the update writes. */
  class Stock {
    var name: string
    var sector: Option<string>
    var industry: Option<string>

    constructor (name: string)
      ensures this.name == name && sector.None? && industry.None?
    {
      this.name := name;
      sector := None;
      industry := None;
    }
  }

  /** The stock's sector and industry columns hold its classification. */
  predicate Classified(s: Stock)
    reads s
  {
    s.sector == Some(ClassifySector(s.name).0) && s.industry == Some(ClassifySector(s.name).1)
  }

  /** `update_stock_sectors`: every stock's sector and industry are overwritten with its
      classification, names are untouched, and every stock is counted. */
  method UpdateStockSectors(stocks: seq<Stock>) returns (updated: nat)
    modifies set s | s in stocks
    ensures updated == |stocks|
    ensures forall s :: s in stocks ==> s.name == old(s.name)
    ensures forall s :: s in stocks ==>
              s.sector == Some(ClassifySector(s.name).0) && s.industry == Some(ClassifySector(s.name).1)
  {
    updated := 0;
    for i := 0 to |stocks|
      invariant updated == i
      invariant forall s :: s in stocks ==> s.name == old(s.name)
      invariant forall j :: 0 <= j < i ==> Classified(stocks[j])
    {
      SetSector(stocks[i]);
      updated := updated + 1;
    }
  }

  /** The loop body: one stock gets the sector and industry its name is classified under. */
  method SetSector(stock: Stock)
    modifies stock
    ensures stock.name == old(stock.name) && Classified(stock)
  {
    var (sector, industry) := ClassifySector(stock.name);
    stock.sector := Some(sector);
    stock.industry := Some(industry);
  }
}
