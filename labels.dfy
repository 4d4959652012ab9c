/** The threshold ladders that turn a number into a label: the period of
    an hour, a customer's age bracket, a cinema hall's size bucket. */
module Labels {
  import opened Calendar

  // ---------------------------------------------------------------------------
  // Period of day (`period_from_hour`)
  // ---------------------------------------------------------------------------

  datatype Period = Morning | Afternoon | Night

  function PeriodName(p: Period): string
  {
    match p
    case Morning => "Morning"
    case Afternoon => "Afternoon"
    case Night => "Night"
  }

  /** The names are the three distinct texts the column stores. */
  lemma PeriodNameInjective(p: Period, q: Period)
    ensures PeriodName(p) == PeriodName(q) <==> p == q
  {
  }

  /** Morning for hours 6..11, Afternoon for 12..17, Night for every other
      integer (including hours outside 0..23). */
  function PeriodFromHour(h: int): (p: Period)
    ensures p == Morning <==> 6 <= h <= 11
    ensures p == Afternoon <==> 12 <= h <= 17
    ensures p == Night <==> h < 6 || h > 17
  {
    if 6 <= h <= 11 then Morning
    else if 12 <= h <= 17 then Afternoon
    else Night
  }

  /** The text `period_from_hour` returns for an hour. */
  lemma PeriodFromHourText(h: int)
    ensures PeriodName(PeriodFromHour(h)) == "Morning" <==> 6 <= h <= 11
    ensures PeriodName(PeriodFromHour(h)) == "Afternoon" <==> 12 <= h <= 17
    ensures PeriodName(PeriodFromHour(h)) == "Night" <==> h < 6 || h > 17
  {
  }

  // ---------------------------------------------------------------------------
  // Customer age bracket
  // ---------------------------------------------------------------------------

  datatype AgeGroup = UpTo20 | From21To30 | From31To40 | From41To50 | Over50

  function AgeGroupName(g: AgeGroup): string
  {
    match g
    case UpTo20 => "0-20"
    case From21To30 => "21-30"
    case From31To40 => "31-40"
    case From41To50 => "41-50"
    case Over50 => "51+"
  }

  /** `(today - dob).days // 365`: whole 365-day periods between the dates
      (floor division; Dafny's division by a positive divisor floors too). */
  function AgeInYears(today: CalDate, dob: CalDate): (age: int)
    ensures 365 * age <= DayNumber(today) - DayNumber(dob) < 365 * (age + 1)
  {
    (DayNumber(today) - DayNumber(dob)) / 365
  }

  /** The bracket ladder: first of <= 20, <= 30, <= 40, <= 50, else 51+. */
  function AgeGroupOf(age: int): (g: AgeGroup)
  {
    if age <= 20 then UpTo20
    else if age <= 30 then From21To30
    else if age <= 40 then From31To40
    else if age <= 50 then From41To50
    else Over50
  }

  /** The text stored in `age_group` for an age, rung by rung. */
  lemma AgeGroupOfText(age: int)
    ensures AgeGroupName(AgeGroupOf(age)) == "0-20" <==> age <= 20
    ensures AgeGroupName(AgeGroupOf(age)) == "21-30" <==> 21 <= age <= 30
    ensures AgeGroupName(AgeGroupOf(age)) == "31-40" <==> 31 <= age <= 40
    ensures AgeGroupName(AgeGroupOf(age)) == "41-50" <==> 41 <= age <= 50
    ensures AgeGroupName(AgeGroupOf(age)) == "51+" <==> 51 <= age
  {
  }

  /** Distinct brackets have distinct labels. */
  lemma AgeGroupNameInjective(g: AgeGroup, h: AgeGroup)
    ensures AgeGroupName(g) == AgeGroupName(h) <==> g == h
  {
  }

  /** Reference reading of a bracket's label: the closed range of ages it
      names ("0-20" also takes any younger value, "51+" is open above). */
  predicate InAgeGroup(g: AgeGroup, age: int)
  {
    match g
    case UpTo20 => age <= 20
    case From21To30 => 21 <= age <= 30
    case From31To40 => 31 <= age <= 40
    case From41To50 => 41 <= age <= 50
    case Over50 => 51 <= age
  }

  /** Every age gets exactly one bracket, the one whose range holds it. */
  lemma AgeGroupOfIsUnique(age: int, g: AgeGroup)
    ensures InAgeGroup(AgeGroupOf(age), age)
    ensures InAgeGroup(g, age) <==> g == AgeGroupOf(age)
  {
  }

  function AgeGroupRank(g: AgeGroup): int
  {
    match g
    case UpTo20 => 0
    case From21To30 => 1
    case From31To40 => 2
    case From41To50 => 3
    case Over50 => 4
  }

  /** An older customer never lands in a younger bracket. */
  lemma AgeGroupMonotone(a: int, b: int)
    requires a <= b
    ensures AgeGroupRank(AgeGroupOf(a)) <= AgeGroupRank(AgeGroupOf(b))
  {
  }

  // ---------------------------------------------------------------------------
  // Cinema hall size
  // ---------------------------------------------------------------------------

  datatype HallSize = Small | Mid | Large

  function HallSizeName(s: HallSize): string
  {
    match s
    case Small => "Small"
    case Mid => "Mid"
    case Large => "Large"
  }

  /** Small below 140 seats, Mid below 240, Large from 240 up. */
  function HallSizeOf(capacity: int): (s: HallSize)
    ensures s == Small <==> capacity < 140
    ensures s == Mid <==> 140 <= capacity < 240
    ensures s == Large <==> 240 <= capacity
  {
    if capacity < 140 then Small
    else if capacity < 240 then Mid
    else Large
  }

  /** The text stored in `hall_size` for a capacity. */
  lemma HallSizeOfText(capacity: int)
    ensures HallSizeName(HallSizeOf(capacity)) == "Small" <==> capacity < 140
    ensures HallSizeName(HallSizeOf(capacity)) == "Mid" <==> 140 <= capacity < 240
    ensures HallSizeName(HallSizeOf(capacity)) == "Large" <==> 240 <= capacity
  {
  }

  /** Distinct buckets have distinct labels. */
  lemma HallSizeNameInjective(s: HallSize, t: HallSize)
    ensures HallSizeName(s) == HallSizeName(t) <==> s == t
  {
  }

  function HallSizeRank(s: HallSize): int
  {
    match s
    case Small => 0
    case Mid => 1
    case Large => 2
  }

  /** A bigger hall never gets a smaller bucket. */
  lemma HallSizeMonotone(a: int, b: int)
    requires a <= b
    ensures HallSizeRank(HallSizeOf(a)) <= HallSizeRank(HallSizeOf(b))
  {
  }
}
