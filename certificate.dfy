/** The rank title printed on the certificate and by the terminal (`getRank` in components/CertificateView.tsx). */
module Certificate {

  const Legend: string := "ЛЕГЕНДА"
  const Expert: string := "ЭКСПЕРТ"
  const Specialist: string := "СПЕЦИАЛИСТ"
  const Novice: string := "НОВИЧОК"

  /** The rank for a score; every threshold is exclusive. */
  function GetRank(score: int): (r: string)
    ensures r == Legend <==> score > 4000
    ensures r == Expert <==> 2500 < score <= 4000
    ensures r == Specialist <==> 1000 < score <= 2500
    ensures r == Novice <==> score <= 1000
  {
    if score > 4000 then Legend
    else if score > 2500 then Expert
    else if score > 1000 then Specialist
    else Novice
  }

  /** The position of a rank title, from the lowest. */
  function RankOrder(r: string): nat {
    if r == Legend then 3
    else if r == Expert then 2
    else if r == Specialist then 1
    else 0
  }

  /** A larger score never earns a lower rank. */
  lemma RankMonotone(a: int, b: int)
    requires a <= b
    ensures RankOrder(GetRank(a)) <= RankOrder(GetRank(b))
  {
  }

  /** The boundary scores belong to the lower rank. */
  lemma RankBoundaries()
    ensures GetRank(1000) == Novice && GetRank(1001) == Specialist
    ensures GetRank(2500) == Specialist && GetRank(2501) == Expert
    ensures GetRank(4000) == Expert && GetRank(4001) == Legend
  {
  }
}
