/**
 * The immutable lookup tables over the closed enumerations: preferred
 * analysis methods, display names, classification keywords and method
 * descriptions.
 */
module Constants {
  import opened Models

  const ALL_CATEGORIES: seq<IndustryCategory> :=
    [Education, ItStartup, Manufacturing, Marketing, Finance, Service, ProjectManagement, GeneralBusiness]

  const ALL_METHODS: seq<AnalysisMethod> :=
    [ LogicModel, SmartGoal, LeanCanvas, Swot, FiveWhy, Fmea, Fta, Hazop, Stp, FourP,
      PorterFiveForces, VaR, MonteCarlo, SensitivityAnalysis, ServiceBlueprint, Sipoc,
      RaidLog, PertCpm, Rbs, Cjm ]

  /** `INDUSTRY_METHODS`: the ranked methods of each category. */
  const INDUSTRY_METHODS: map<IndustryCategory, seq<AnalysisMethod>> := map[
    Education := [LogicModel, SmartGoal, Cjm],
    ItStartup := [LeanCanvas, Swot, Cjm, FiveWhy],
    Manufacturing := [Fmea, Fta, Hazop],
    Marketing := [Stp, FourP, PorterFiveForces, Swot],
    Finance := [VaR, MonteCarlo, SensitivityAnalysis],
    Service := [ServiceBlueprint, Sipoc, Cjm],
    ProjectManagement := [RaidLog, PertCpm, Rbs],
    GeneralBusiness := [Swot, LeanCanvas, Cjm]
  ]

  /** `INDUSTRY_NAMES`: the display name of each category. */
  const INDUSTRY_NAMES: map<IndustryCategory, string> := map[
    Education := "교육 / 학습 / 에듀테크",
    ItStartup := "IT / 앱 / 소프트웨어 / 스타트업",
    Manufacturing := "제조 / 공장 / 설비 / 하드웨어",
    Marketing := "마케팅 / 광고 / 브랜딩 / 소비재",
    Finance := "금융 / 투자 / 재무",
    Service := "서비스업 / 외식 / 프랜차이즈 / 숙박",
    ProjectManagement := "프로젝트 / 건설 / 공공사업 / 인프라",
    GeneralBusiness := "기타 / 범용 비즈니스 / 아직 모르겠음"
  ]

  /**
   * `INDUSTRY_KEYWORDS`, in declaration order: a Python dict iterates in
   * insertion order, and the classifier depends on that order.
   */
  const INDUSTRY_KEYWORDS: seq<(IndustryCategory, seq<string>)> := [
    (Education, ["교육", "학습", "에듀테크", "강의", "온라인 강좌", "학원", "교육 콘텐츠",
                 "이러닝", "학생", "교사", "교육 플랫폼", "교육용", "학습 관리"]),
    (ItStartup, ["앱", "애플리케이션", "소프트웨어", "플랫폼", "SaaS", "모바일", "웹",
                 "스타트업", "IT", "기술", "개발", "서비스 개발", "디지털", "온라인 서비스"]),
    (Manufacturing, ["제조", "생산", "공장", "설비", "하드웨어", "제품 생산", "생산라인",
                     "제조업", "공정", "조립", "기계", "제작", "양산"]),
    (Marketing, ["마케팅", "광고", "브랜드", "브랜딩", "홍보", "프로모션", "캠페인",
                 "소비재", "B2C", "고객 유치", "브랜드 인지도", "마케팅 전략"]),
    (Finance, ["금융", "투자", "재무", "펀드", "자산 운용", "주식", "채권", "대출",
               "핀테크", "금융 상품", "포트폴리오", "리스크 관리", "자산 관리"]),
    (Service, ["서비스", "외식", "음식점", "레스토랑", "카페", "프랜차이즈", "숙박",
               "호텔", "게스트하우스", "고객 서비스", "오프라인 매장", "점포"]),
    (ProjectManagement, ["프로젝트", "건설", "공공사업", "인프라", "시공", "공사", "토목",
                         "대형 프로젝트", "건축", "사회기반시설", "정부 발주", "공공 입찰"])
  ]

  /** `METHOD_DESCRIPTIONS`: one line of explanation per method. */
  const METHOD_DESCRIPTIONS: map<AnalysisMethod, string> := map[
    LogicModel := "교육 성과를 Input→Outcome 구조로 분석",
    SmartGoal := "교육/학습 목표가 현실적인지 평가",
    LeanCanvas := "스타트업 BM 전체 리스크를 한 장에 구조화",
    Swot := "내부·외부 요인을 빠르게 분석",
    Cjm := "사용자 여정 분석 (유입→사용→이탈 지점 찾기)",
    FiveWhy := "문제·버그의 근본 원인 분석",
    Fmea := "고장·불량 리스크를 정량화 (O/S/D)",
    Fta := "고장의 근본 원인을 트리 형태로 추적",
    Hazop := "공정/작업 환경의 위험요인 분석",
    Stp := "시장·타겟·포지셔닝 구조화",
    FourP := "제품·가격·유통·프로모션 점검",
    PorterFiveForces := "시장 경쟁 강도 분석",
    VaR := "손실 리스크를 확률적으로 계산",
    MonteCarlo := "변수 변동을 시뮬레이션하여 리스크 측정",
    SensitivityAnalysis := "이익이 변수 변화에 얼마나 민감한지 분석",
    ServiceBlueprint := "고객 경험 + 백오피스 프로세스를 동시에 분석",
    Sipoc := "서비스 프로세스를 전체 흐름으로 시각화",
    RaidLog := "리스크·이슈·가정·의존성을 구조적으로 관리",
    PertCpm := "일정 지연 리스크 및 크리티컬 경로 계산",
    Rbs := "대형 프로젝트 리스크를 구조적 분류"
  ]

  predicate NoDuplicates<T(==)>(s: seq<T>) {
    forall i, j :: 0 <= i < j < |s| ==> s[i] != s[j]
  }

  /** The category of the `i`-th entry of `INDUSTRY_KEYWORDS`. */
  function KeywordCategory(i: nat): IndustryCategory
    requires i < |INDUSTRY_KEYWORDS|
  {
    INDUSTRY_KEYWORDS[i].0
  }

  lemma AllCategoriesListed(c: IndustryCategory)
    ensures c in ALL_CATEGORIES
  {
    match c
    case Education => assert ALL_CATEGORIES[0] == c;
    case ItStartup => assert ALL_CATEGORIES[1] == c;
    case Manufacturing => assert ALL_CATEGORIES[2] == c;
    case Marketing => assert ALL_CATEGORIES[3] == c;
    case Finance => assert ALL_CATEGORIES[4] == c;
    case Service => assert ALL_CATEGORIES[5] == c;
    case ProjectManagement => assert ALL_CATEGORIES[6] == c;
    case GeneralBusiness => assert ALL_CATEGORIES[7] == c;
  }

  /** Every category has a method list of at least three distinct methods. */
  lemma IndustryMethodsComplete(c: IndustryCategory)
    ensures c in INDUSTRY_METHODS
    ensures |INDUSTRY_METHODS[c]| >= 3
    ensures NoDuplicates(INDUSTRY_METHODS[c])
  {
  }

  /** Every category has a display name, so the classifier's lookup never fails. */
  lemma IndustryNamesComplete(c: IndustryCategory)
    ensures c in INDUSTRY_NAMES
  {
  }

  /** Every one of the twenty methods has a description. */
  lemma MethodDescriptionsComplete(m: AnalysisMethod)
    ensures m in METHOD_DESCRIPTIONS
  {
  }

  /**
   * The keyword table lists the seven specific categories once each, in
   * declaration order, and has no entry for the catch-all.
   */
  lemma KeywordCategoriesExact()
    ensures |INDUSTRY_KEYWORDS| == 7
    ensures forall i :: 0 <= i < 7 ==> KeywordCategory(i) == ALL_CATEGORIES[i]
    ensures forall i :: 0 <= i < 7 ==> KeywordCategory(i) != GeneralBusiness
    ensures forall i, j :: 0 <= i < j < 7 ==> KeywordCategory(i) != KeywordCategory(j)
  {
  }

  /** Each specific category has its entry in the keyword table. */
  lemma KeywordEntryOf(c: IndustryCategory) returns (i: nat)
    requires c != GeneralBusiness
    ensures i < |INDUSTRY_KEYWORDS| && KeywordCategory(i) == c
  {
    AllCategoriesListed(c);
    i :| 0 <= i < 8 && ALL_CATEGORIES[i] == c;
  }

  /** No classification keyword is empty, so none matches every description. */
  lemma KeywordsNonEmpty(i: nat, k: nat)
    requires i < |INDUSTRY_KEYWORDS| && k < |INDUSTRY_KEYWORDS[i].1|
    ensures |INDUSTRY_KEYWORDS[i].1[k]| > 0
  {
  }
}
