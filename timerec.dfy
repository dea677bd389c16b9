/** The time-of-day suggestion (movie-swipe/app/components/TimeRecommendationModal.tsx):
    a message and a filter chosen from the local hour (0-23) and weekday
    (0 = Sunday, 6 = Saturday), both inputs here. */
module TimeRecommendation {
  import opened Common
  import opened Filters

  datatype Recommendation = Recommendation(message: string, filters: FilterOptions)

  const BedtimeMessage := "寝る前に見るなら、90分以内の軽めの映画はいかが？"
  const WeekendMessage := "時間があるなら、長めの映画も楽しめますよ"
  const AfterWorkMessage := "仕事の後なら、2時間以内の映画がおすすめ"
  const DefaultMessage := "今の時間にぴったりの映画を探しましょう"

  predicate IsWeekend(day: int)
  {
    day == 0 || day == 6
  }

  /** `getTimeRecommendation`: from 22:00 a 90-minute ceiling whatever the
      day; weekend daytime (10:00-17:59) no ceiling; weekday evening
      (18:00-21:59) and every other time a 120-minute ceiling. Only the
      runtime is ever constrained. */
  function GetTimeRecommendation(hour: int, day: int): (r: Recommendation)
    requires 0 <= hour < 24 && 0 <= day < 7
    ensures r.filters == Unconstrained.(runtime := r.filters.runtime)
    ensures r.filters.runtime == Some(90) <==> hour >= 22
    ensures r.filters.runtime == None <==> IsWeekend(day) && 10 <= hour < 18
    ensures r.filters.runtime == Some(120) <==> hour < 22 && !(IsWeekend(day) && 10 <= hour < 18)
    ensures r.message == BedtimeMessage <==> hour >= 22
    ensures r.message == WeekendMessage <==> IsWeekend(day) && 10 <= hour < 18
    ensures r.message == AfterWorkMessage <==> !IsWeekend(day) && 18 <= hour < 22
    ensures r.message == DefaultMessage <==>
              hour < 22 && !(IsWeekend(day) && 10 <= hour < 18) && !(!IsWeekend(day) && 18 <= hour < 22)
  {
    if hour >= 22 then Recommendation(BedtimeMessage, Unconstrained.(runtime := Some(90)))
    else if IsWeekend(day) && hour >= 10 && hour < 18 then Recommendation(WeekendMessage, Unconstrained)
    else if !IsWeekend(day) && hour >= 18 && hour < 22 then Recommendation(AfterWorkMessage, Unconstrained.(runtime := Some(120)))
    else Recommendation(DefaultMessage, Unconstrained.(runtime := Some(120)))
  }

  /** The suggested ceiling is one of 90, 120 or none. */
  lemma RuntimeChoices(hour: int, day: int)
    requires 0 <= hour < 24 && 0 <= day < 7
    ensures var rt := GetTimeRecommendation(hour, day).filters.runtime;
      rt == Some(90) || rt == Some(120) || rt == None
  {
  }
}
