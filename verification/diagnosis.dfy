/** The diagnosis card's score banding: the text colour and the background
    of the score badge. */
module Diagnosis {

  /** `getScoreColor` */
  function ScoreColor(score: int): (r: string)
    ensures r == "text-green-600" <==> score >= 70
    ensures r == "text-yellow-600" <==> 40 <= score < 70
    ensures r == "text-red-600" <==> score < 40
  {
    if score >= 70 then "text-green-600"
    else if score >= 40 then "text-yellow-600"
    else "text-red-600"
  }

  /** `getScoreBg` */
  function ScoreBg(score: int): (r: string)
    ensures r == "bg-green-100" <==> score >= 70
    ensures r == "bg-yellow-100" <==> 40 <= score < 70
    ensures r == "bg-red-100" <==> score < 40
  {
    if score >= 70 then "bg-green-100"
    else if score >= 40 then "bg-yellow-100"
    else "bg-red-100"
  }

  /** The three bands, best first. */
  datatype Band = Green | Yellow | Red

  /** Reference banding: at least 70, at least 40, below 40. */
  function BandOf(score: int): Band
  {
    if score >= 70 then Green else if 40 <= score then Yellow else Red
  }

  /** 0 for the best band, 2 for the worst. */
  function Rank(b: Band): nat
  {
    match b
    case Green => 0
    case Yellow => 1
    case Red => 2
  }

  function BandColor(b: Band): string
  {
    match b
    case Green => "text-green-600"
    case Yellow => "text-yellow-600"
    case Red => "text-red-600"
  }

  function BandBg(b: Band): string
  {
    match b
    case Green => "bg-green-100"
    case Yellow => "bg-yellow-100"
    case Red => "bg-red-100"
  }

  /** Colour and background always name the band of the score. */
  lemma SameBand(score: int)
    ensures ScoreColor(score) == BandColor(BandOf(score))
    ensures ScoreBg(score) == BandBg(BandOf(score))
  {
  }

  /** Two scores get the same colour exactly when they get the same
      background. */
  lemma ColorMatchesBackground(s1: int, s2: int)
    ensures ScoreColor(s1) == ScoreColor(s2) <==> ScoreBg(s1) == ScoreBg(s2)
  {
    SameBand(s1);
    SameBand(s2);
  }

  /** The thresholds belong to the upper band. */
  lemma Boundaries()
    ensures ScoreColor(70) == "text-green-600" && ScoreColor(69) == "text-yellow-600"
    ensures ScoreColor(40) == "text-yellow-600" && ScoreColor(39) == "text-red-600"
    ensures ScoreBg(70) == "bg-green-100" && ScoreBg(69) == "bg-yellow-100"
    ensures ScoreBg(40) == "bg-yellow-100" && ScoreBg(39) == "bg-red-100"
  {
  }

  /** A higher score never lands in a worse band. */
  lemma Monotone(s1: int, s2: int)
    requires s1 <= s2
    ensures Rank(BandOf(s2)) <= Rank(BandOf(s1))
  {
  }

  /** Scores outside 0-100 are banded as they are, without clamping. */
  lemma NoClamping()
    ensures ScoreColor(150) == "text-green-600" && ScoreBg(150) == "bg-green-100"
    ensures ScoreColor(-5) == "text-red-600" && ScoreBg(-5) == "bg-red-100"
  {
  }
}
