/** The application's constants (constants.tsx): month labels, the
    reflection presets, the twelve seed records shown on first run and the
    three-band score colour. */
module Constants {
  import opened Types

  /** `MONTH_NAMES`: the Korean labels "1월" .. "12월". */
  const MonthNames: seq<string> :=
    ["1월", "2월", "3월", "4월", "5월", "6월", "7월", "8월", "9월", "10월", "11월", "12월"]

  /** Each month label is the month number followed by "월". */
  lemma MonthNamesAreNumbered()
    ensures |MonthNames| == 12
    ensures forall k | 0 <= k < 12 :: MonthNames[k] == IntToString(k + 1) + "월"
  {
  }

  /** `INITIAL_REFLECTIONS`: five preset tags, all switched off. */
  const InitialReflections: seq<Category> := [
    Category("1", "새로운 배움", false),
    Category("2", "깊은 휴식", false),
    Category("3", "뜻밖의 행운", false),
    Category("4", "도전과 성장", false),
    Category("5", "소중한 만남", false)
  ]

  /** The presets carry the distinct ids "1" to "5" and start switched off. */
  lemma InitialReflectionsShape()
    ensures |InitialReflections| == 5
    ensures DistinctIds(InitialReflections)
    ensures forall k | 0 <= k < 5 :: InitialReflections[k].id == NatToString(k + 1)
    ensures forall k | 0 <= k < 5 :: !InitialReflections[k].value
  {
  }

  /** `INITIAL_DATA`: the example year shown before anything is saved. */
  const InitialData: seq<MonthlyData> := [
    MonthlyData(1, 65, "새로운 시작의 설렘",
      "새해 첫 시작. 운동을 시작했고 조금 힘들지만 뿌듯하다. 작심삼일이 되지 않길.",
      [], [Category("1", "새로운 배움", true), Category("4", "도전과 성장", true)],
      ["헬스장 20일 출석", "독서 2권 완료"],
      Some("나 자신"), Some("동네 공원"),
      Some("건강하게 한 해를 시작할 수 있음에 감사"),
      Some("초반 열정에 비해 후반에 조금 느슨해짐"),
      Some("매일 아침 명상 추가하기")),
    MonthlyData(2, 45, "조금은 느려도 괜찮아",
      "명절 연휴로 조금 나태해졌다. 업무 스트레스가 조금 있었지만 가족들과 즐거운 시간.",
      [], [Category("5", "소중한 만남", true)],
      ["가족 여행 다녀옴"],
      Some("부모님"), Some("강릉 바다"),
      Some("가족과 함께 따뜻한 밥 한 끼 먹을 수 있는 시간"),
      Some("계획했던 자격증 공부를 거의 못 함"),
      Some("주말 오전 시간 활용하기")),
    MonthlyData(3, 80, "봄바람에 실려온 성취",
      "봄이 오면서 기분이 좋아졌다. 프로젝트 결과가 좋아서 인정을 받았다!",
      [], [Category("4", "도전과 성장", true), Category("3", "뜻밖의 행운", true)],
      ["성과금 수령", "영어 회화 수업 시작"],
      Some("팀장님"), Some("사무실 창가"),
      Some("노력한 만큼 결과가 따라준 프로젝트"),
      Some("성취에 취해 잠을 너무 줄인 것"),
      Some("수면 시간 6시간 확보하기")),
    MonthlyData(4, 70, "평화로운 오후의 산책",
      "벚꽃 구경도 가고 산책을 많이 했다. 마음이 평온해진 한 달.",
      [], [Category("2", "깊은 휴식", true)],
      ["주말 등산 성공", "식물 키우기 시작"],
      Some("오래된 친구"), Some("석촌호수"),
      Some("길가에 핀 꽃 한 송이를 감상할 수 있는 마음의 여유"),
      Some("식단 관리를 전혀 하지 않음"),
      Some("일주일에 3번 클린 식단")),
    MonthlyData(5, 55, "가족과 함께한 시간",
      "생각보다 지출이 많아 경제적으로 압박이 있었음. 그래도 건강은 좋아짐.",
      [], [Category("2", "깊은 휴식", true)],
      ["건강검진 완료"],
      Some("조카"), Some("집 앞 마당"),
      Some("조카의 맑은 웃음소리"),
      Some("지갑 사정을 고려하지 않은 충동 구매"),
      Some("가계부 작성 다시 시작")),
    MonthlyData(6, 30, "잠시 멈춰 서서",
      "번아웃이 온 것 같다. 아무것도 하기 싫고 무기력한 나날들.",
      [], [Category("2", "깊은 휴식", false)],
      [],
      Some("강아지"), Some("내 방 침대"),
      Some("아무것도 하지 않아도 곁을 지켜주는 반려견"),
      Some("스스로를 너무 몰아붙였던 시간들"),
      Some("작은 쉼표를 자주 찍기")),
    MonthlyData(7, 85, "푸른 바다와 파도",
      "여름 휴가! 발리로 떠난 여행은 내 인생 최고의 경험이었다.",
      [], [Category("3", "뜻밖의 행운", true), Category("2", "깊은 휴식", true)],
      ["서핑 첫 도전 성공", "인생 사진 남김"],
      Some("여행 가이드"), Some("발리 우붓"),
      Some("새로운 세상을 경험할 수 있는 건강과 기회"),
      Some("일행과 작은 오해로 잠시 어색했던 순간"),
      Some("상대의 마음을 먼저 물어봐 주기")),
    MonthlyData(8, 60, "뜨거운 여름의 끝자락",
      "휴가 이후 다시 일상으로. 날씨는 덥지만 다시 힘을 내보는 중.",
      [], [Category("1", "새로운 배움", true)],
      ["블로그 포스팅 10개"],
      Some("동료"), Some("루프탑 카페"),
      Some("지친 오후 건네받은 시원한 아이스커피"),
      Some("더위 때문에 운동을 자꾸 미룸"),
      Some("홈 트레이닝으로 대체하기")),
    MonthlyData(9, 75, "가울을 준비하는 마음",
      "선선한 가을 바람과 함께 공부 의지가 불타오름. 사이드 프로젝트 시작.",
      [], [Category("1", "새로운 배움", true), Category("4", "도전과 성장", true)],
      ["리액트 심화 과정 수료"],
      Some("스터디 리더"), Some("도서관"),
      Some("함께 성장하는 스터디원들의 긍정적인 에너지"),
      Some("사이드 프로젝트 진도가 생각보다 느림"),
      Some("주중 코딩 시간 고정하기")),
    MonthlyData(10, 50, "바쁜 일상 속의 발견",
      "업무가 너무 몰렸다. 야근의 연속... 건강을 좀 더 챙겨야겠다.",
      [], [Category("4", "도전과 성장", true)],
      ["대규모 프로젝트 출시"],
      Some("나 자신"), Some("한강 고수부지"),
      Some("고된 업무를 무사히 마친 내 인내심"),
      Some("스트레스를 음식으로 풀려 한 것"),
      Some("스트레스 해소용 취미 찾기")),
    MonthlyData(11, 40, "우연히 만난 그리움",
      "날씨가 추워지니 마음도 조금 쓸쓸. 옛 친구들과 만나 회포를 풀었다.",
      [], [Category("5", "소중한 만남", true)],
      ["동창회 모임 주최"],
      Some("초등학교 친구"), Some("오래된 선술집"),
      Some("오랜 시간이 지나도 변치 않는 우정"),
      Some("부정적인 생각에 잠겨있던 며칠"),
      Some("하루 3가지 감사 일기 쓰기")),
    MonthlyData(12, 90, "마지막 페이지의 선물",
      "한 해를 돌아보니 감사한 일이 많다. 사랑하는 사람과 따뜻한 연말 마무리.",
      [], [Category("3", "뜻밖의 행운", true), Category("5", "소중한 만남", true)],
      ["2025 라이프 그래프 완성!", "사랑하는 사람에게 고백"],
      Some("사랑하는 사람"), Some("크리스마스 마켓"),
      Some("내 곁을 지켜준 수많은 기적 같은 순간들"),
      Some("좀 더 용기 내지 못했던 몇몇 순간"),
      Some("내년엔 더 솔직하게 표현하기"))
  ]

  /** The seed holds twelve valid records in month order, each with
      distinct category ids and no images. */
  lemma InitialDataShape()
    ensures |InitialData| == 12
    ensures forall k | 0 <= k < 12 :: InitialData[k].month == k + 1
    ensures forall k | 0 <= k < 12 :: ValidRecord(InitialData[k])
    ensures forall k | 0 <= k < 12 :: DistinctIds(InitialData[k].categories)
    ensures forall k | 0 <= k < 12 :: InitialData[k].images == []
  {
  }

  /** The three score bands and their colours (`EMOTIONAL_COLORS`). */
  datatype ScoreBand = Low | Mid | High

  function BandColor(b: ScoreBand): string
  {
    match b
    case Low => "#38BDF8"
    case Mid => "#A78BFA"
    case High => "#FB7185"
  }

  /** `getScoreColor(score)`: above 70 is high, above 40 is mid, the rest
      (40 included) is low. */
  function ScoreBandOf(score: int): (b: ScoreBand)
    ensures b == High <==> score > 70
    ensures b == Mid <==> 40 < score <= 70
    ensures b == Low <==> score <= 40
  {
    if score > 70 then High else if score > 40 then Mid else Low
  }

  /** The colour string `getScoreColor` returns. */
  function ScoreColor(score: int): (c: string)
    ensures c == "#FB7185" <==> score > 70
    ensures c == "#A78BFA" <==> 40 < score <= 70
    ensures c == "#38BDF8" <==> score <= 40
  {
    BandColor(ScoreBandOf(score))
  }

  /** The band edges: 70 is still mid and 40 is already low. */
  lemma ScoreBandEdges()
    ensures ScoreBandOf(71) == High && ScoreBandOf(70) == Mid
    ensures ScoreBandOf(41) == Mid && ScoreBandOf(40) == Low
  {
  }
}
