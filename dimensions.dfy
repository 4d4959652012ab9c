/** The row-building loops of `populate_customers`, `populate_cinemas`,
    `populate_promotions` and `populate_showings`. Every Faker or `random`
    draw a loop makes is an element of an input sequence. */
module Dimensions {
  import opened Common
  import opened Calendar
  import opened Decimal
  import opened Labels
  import opened Chunking

  // ---------------------------------------------------------------------------
  // Customers
  // ---------------------------------------------------------------------------

  datatype Gender = M | F

  function GenderName(g: Gender): string
  {
    match g
    case M => "M"
    case F => "F"
  }

  /** `random.choice(["M", "F"])`: the two genders store distinct texts. */
  lemma GenderNameInjective(g: Gender, h: Gender)
    ensures GenderName(g) == GenderName(h) <==> g == h
  {
  }

  /** `str.replace("\n", ", ")` on an address. */
  function ReplaceNewlines(s: string): (r: string)
    ensures forall k :: 0 <= k < |r| ==> r[k] != '\n'
    ensures (forall k :: 0 <= k < |s| ==> s[k] != '\n') ==> r == s
    ensures |r| >= |s|
    decreases |s|
  {
    if s == [] then []
    else (if s[0] == '\n' then ", " else [s[0]]) + ReplaceNewlines(s[1..])
  }

  /** The replacement works character by character: it distributes over
      concatenation, and a single character becomes ", " if it is a line
      feed and stays itself otherwise. These equations determine the
      function on every string. */
  lemma {:induction false} ReplaceNewlinesConcat(a: string, b: string)
    ensures ReplaceNewlines(a + b) == ReplaceNewlines(a) + ReplaceNewlines(b)
    decreases |a|
  {
    if a == [] {
      assert a + b == b;
    } else {
      assert (a + b)[1..] == a[1..] + b;
      ReplaceNewlinesConcat(a[1..], b);
    }
  }

  lemma ReplaceNewlinesChar(c: char)
    ensures ReplaceNewlines([c]) == if c == '\n' then ", " else [c]
  {
  }

  /** The draws of one loop iteration: a date of birth, a name, a postal
      address (possibly several lines) and a gender. */
  datatype CustomerDraw = CustomerDraw(dob: CalDate, name: string, address: string, gender: Gender)

  datatype CustomerRow = CustomerRow(
    customerId: int, name: string, dob: CalDate, address: string, gender: Gender, ageGroup: AgeGroup)

  /** Batch size of the customer inserts. */
  const CustomerPageSize := 10_000

  /** The row of customer `id`: the bracket holds the customer's age on
      `today`, and the address is on one line. */
  function CustomerRowOf(today: CalDate, id: int, draw: CustomerDraw): (row: CustomerRow)
    ensures row.customerId == id && row.dob == draw.dob && row.name == draw.name && row.gender == draw.gender
    ensures InAgeGroup(row.ageGroup, AgeInYears(today, draw.dob))
    ensures forall k :: 0 <= k < |row.address| ==> row.address[k] != '\n'
  {
    AgeGroupOfIsUnique(AgeInYears(today, draw.dob), Over50);
    CustomerRow(id, draw.name, draw.dob, ReplaceNewlines(draw.address), draw.gender,
                AgeGroupOf(AgeInYears(today, draw.dob)))
  }

  /** The `for i in range(1, N_CUSTOMERS + 1)` loop, then the split of the
      rows into insert batches with `chunks(rows, 10_000)`. `today` stands
      for `date.today()`. */
  method PopulateCustomers(today: CalDate, draws: seq<CustomerDraw>)
    returns (rows: seq<CustomerRow>, batches: seq<seq<CustomerRow>>)
    ensures |rows| == |draws|
    ensures forall k :: 0 <= k < |rows| ==> rows[k] == CustomerRowOf(today, k + 1, draws[k])
    ensures batches == ChunksOf(rows, CustomerPageSize)
    ensures Flatten(batches) == rows
  {
    rows := [];
    var i := 1;
    while i <= |draws|
      invariant 1 <= i <= |draws| + 1
      invariant |rows| == i - 1
      invariant forall k :: 0 <= k < |rows| ==> rows[k] == CustomerRowOf(today, k + 1, draws[k])
    {
      rows := rows + [CustomerRowOf(today, i, draws[i - 1])];
      i := i + 1;
    }
    var r := Chunks(rows, CustomerPageSize);
    batches := r.value;
    ChunksOfFlatten(rows, CustomerPageSize);
  }

  // ---------------------------------------------------------------------------
  // Cinemas
  // ---------------------------------------------------------------------------

  /** `CITIES`: (city, state) pairs. */
  const Cities: seq<(string, string)> := [
    ("New York", "NY"), ("Los Angeles", "CA"), ("Chicago", "IL"), ("Houston", "TX"),
    ("Phoenix", "AZ"), ("Philadelphia", "PA"), ("San Antonio", "TX"), ("San Diego", "CA"),
    ("Dallas", "TX"), ("San Jose", "CA"), ("Austin", "TX"), ("Jacksonville", "FL")]

  /** `random.choice(CITIES)` picks one of the twelve entries. */
  type CityIndex = i: int | 0 <= i < 12

  datatype CinemaDraw = CinemaDraw(city: CityIndex, capacity: int, street: string)

  datatype CinemaRow = CinemaRow(
    cinemaId: int, cinemaName: string, city: string, state: string,
    hallCapacity: int, hallSize: HallSize, address: string)

  function CinemaName(id: nat): string
  {
    "Cinema " + NatToString(id)
  }

  /** Distinct cinema ids give distinct names. */
  lemma CinemaNameInjective(i: nat, j: nat)
    ensures CinemaName(i) == CinemaName(j) <==> i == j
  {
    if CinemaName(i) == CinemaName(j) {
      assert CinemaName(i)[7..] == NatToString(i);
      assert CinemaName(j)[7..] == NatToString(j);
      NatToStringRoundTrip(i);
      NatToStringRoundTrip(j);
    }
  }

  /** The row of cinema `id`: the chosen city with its state, and the size
      bucket of the drawn capacity. */
  function CinemaRowOf(id: nat, draw: CinemaDraw): (row: CinemaRow)
    ensures row.cinemaId == id && row.hallCapacity == draw.capacity && row.address == draw.street
    ensures (row.city, row.state) == Cities[draw.city] && (row.city, row.state) in Cities
    ensures row.cinemaName == CinemaName(id)
    ensures row.hallSize == Small <==> draw.capacity < 140
    ensures row.hallSize == Mid <==> 140 <= draw.capacity < 240
    ensures row.hallSize == Large <==> 240 <= draw.capacity
  {
    var (city, state) := Cities[draw.city];
    CinemaRow(id, CinemaName(id), city, state, draw.capacity, HallSizeOf(draw.capacity), draw.street)
  }

  /** The `for i in range(1, N_CINEMAS + 1)` loop. */
  method PopulateCinemas(draws: seq<CinemaDraw>) returns (rows: seq<CinemaRow>)
    ensures |rows| == |draws|
    ensures forall k :: 0 <= k < |rows| ==> rows[k] == CinemaRowOf(k + 1, draws[k])
  {
    rows := [];
    var i := 1;
    while i <= |draws|
      invariant 1 <= i <= |draws| + 1
      invariant |rows| == i - 1
      invariant forall k :: 0 <= k < |rows| ==> rows[k] == CinemaRowOf(k + 1, draws[k])
    {
      rows := rows + [CinemaRowOf(i, draws[i - 1])];
      i := i + 1;
    }
  }

  /** No two cinemas of one run share a name. */
  lemma CinemaNamesDistinct(rows: seq<CinemaRow>, draws: seq<CinemaDraw>, a: int, b: int)
    requires |rows| == |draws|
    requires forall k :: 0 <= k < |rows| ==> rows[k] == CinemaRowOf(k + 1, draws[k])
    requires 0 <= a < |rows| && 0 <= b < |rows| && a != b
    ensures rows[a].cinemaName != rows[b].cinemaName
  {
    CinemaNameInjective(a + 1, b + 1);
  }

  // ---------------------------------------------------------------------------
  // Promotions
  // ---------------------------------------------------------------------------

  datatype PromoType = NoPromo | Student | Weekend | Holiday | Member | Bogo

  function PromoTypeName(p: PromoType): string
  {
    match p
    case NoPromo => "None"
    case Student => "Student"
    case Weekend => "Weekend"
    case Holiday => "Holiday"
    case Member => "Member"
    case Bogo => "BOGO"
  }

  /** The draws of one iteration: the type, and the rounded uniform value
      in [5, 35] (taken as an exact number here). */
  datatype PromoDraw = PromoDraw(ptype: PromoType, uniform: real)

  datatype PromotionRow = PromotionRow(promotionId: int, promotionType: PromoType, description: string, discount: real)

  /** A "None" promotion has discount 0; any other has the drawn value. */
  function PromotionRowOf(id: int, draw: PromoDraw): (row: PromotionRow)
    ensures row.promotionId == id && row.promotionType == draw.ptype
    ensures row.description == PromoTypeName(draw.ptype) + " promotion"
    ensures draw.ptype == NoPromo ==> row.discount == 0.0
    ensures draw.ptype != NoPromo ==> row.discount == draw.uniform
  {
    var discount := if PromoTypeName(draw.ptype) == "None" then 0.0 else draw.uniform;
    PromotionRow(id, draw.ptype, PromoTypeName(draw.ptype) + " promotion", discount)
  }

  /** With the draw in its range, a promotion is free of discount exactly
      when its type is "None". */
  lemma ZeroDiscountIffNone(id: int, draw: PromoDraw)
    requires 5.0 <= draw.uniform <= 35.0
    ensures PromotionRowOf(id, draw).discount == 0.0 <==> draw.ptype == NoPromo
  {
  }

  /** Type names differ, so the description names the type. */
  lemma PromoTypeNameInjective(p: PromoType, q: PromoType)
    ensures PromoTypeName(p) == PromoTypeName(q) <==> p == q
  {
  }

  /** The `for i in range(1, N_PROMOTIONS + 1)` loop. */
  method PopulatePromotions(draws: seq<PromoDraw>) returns (rows: seq<PromotionRow>)
    ensures |rows| == |draws|
    ensures forall k :: 0 <= k < |rows| ==> rows[k] == PromotionRowOf(k + 1, draws[k])
  {
    rows := [];
    var i := 1;
    while i <= |draws|
      invariant 1 <= i <= |draws| + 1
      invariant |rows| == i - 1
      invariant forall k :: 0 <= k < |rows| ==> rows[k] == PromotionRowOf(k + 1, draws[k])
    {
      rows := rows + [PromotionRowOf(i, draws[i - 1])];
      i := i + 1;
    }
  }

  // ---------------------------------------------------------------------------
  // Showings
  // ---------------------------------------------------------------------------

  /** `random.choice([0, 15, 30, 45])` in `time_from_hour`. */
  type Minute = m: int | m == 0 || m == 15 || m == 30 || m == 45

  datatype ShowTime = ShowTime(hour: int, minute: Minute)

  datatype ShowingRow = ShowingRow(showingId: int, showDate: CalDate, showTime: ShowTime, hour: int, period: Period)

  /** `base_date`, the placeholder show date of every showing. */
  const ShowBaseDate: CalDate := Date(2014, 1, 1)

  /** 24 hours times 3 showings. */
  const MaxShowings := 72

  /** Rows the loop emits for a cap of n: the cap itself up to 72, but one
      row when the cap is 0 or less, because the first row is appended
      before the cap is tested. */
  function ShowingCount(n: int): (c: int)
    ensures 1 <= c <= MaxShowings
    ensures n >= 1 ==> c == Min(n, MaxShowings)
    ensures n <= 0 ==> c == 1
  {
    if n <= 0 then 1 else Min(n, MaxShowings)
  }

  /** Row k (0-based) of the enumeration: id k + 1 in hour k / 3. */
  function ShowingRowOf(k: nat, minute: Minute): (row: ShowingRow)
    ensures row.showingId == k + 1
    ensures row.hour == (row.showingId - 1) / 3 && row.showTime.hour == row.hour
    ensures row.period == PeriodFromHour(row.hour)
  {
    ShowingRow(k + 1, ShowBaseDate, ShowTime(k / 3, minute), k / 3, PeriodFromHour(k / 3))
  }

  /** The nested `for h in range(24)` / `for _ in range(3)` loop with its
      `sid` counter and the two breaks once `nShowings` rows exist.
      `minutes` holds the minute drawn for each row in turn. */
  method PopulateShowings(nShowings: int, minutes: seq<Minute>) returns (rows: seq<ShowingRow>)
    requires |minutes| >= ShowingCount(nShowings)
    ensures |rows| == ShowingCount(nShowings)
    ensures forall k :: 0 <= k < |rows| ==> rows[k] == ShowingRowOf(k, minutes[k])
  {
    rows := [];
    var sid := 1;
    var h := 0;
    while h < 24
      invariant 0 <= h <= 24
      invariant |rows| == 3 * h && sid == |rows| + 1
      invariant h > 0 ==> 3 * h < nShowings
      invariant forall k :: 0 <= k < |rows| ==> rows[k] == ShowingRowOf(k, minutes[k])
    {
      var j := 0;
      while j < 3
        invariant 0 <= j <= 3
        invariant |rows| == 3 * h + j && sid == |rows| + 1
        invariant |rows| > 0 ==> |rows| < nShowings
        invariant forall k :: 0 <= k < |rows| ==> rows[k] == ShowingRowOf(k, minutes[k])
      {
        DivUnique(3 * h + j, 3, h, j);
        var minute := minutes[|rows|];
        rows := rows + [ShowingRow(sid, ShowBaseDate, ShowTime(h, minute), h, PeriodFromHour(h))];
        sid := sid + 1;
        if |rows| >= nShowings {
          break;
        }
        j := j + 1;
      }
      if |rows| >= nShowings {
        break;
      }
      h := h + 1;
    }
  }

  /** Ids run 1, 2, 3, ... without gaps, and consecutive rows never go back
      an hour. */
  lemma ShowingIdsConsecutive(rows: seq<ShowingRow>, minutes: seq<Minute>, a: int, b: int)
    requires |rows| <= |minutes|
    requires forall k :: 0 <= k < |rows| ==> rows[k] == ShowingRowOf(k, minutes[k])
    requires 0 <= a < b < |rows|
    ensures rows[b].showingId - rows[a].showingId == b - a
    ensures rows[a].hour <= rows[b].hour
  {
    var qa, qb := a / 3, b / 3;
    assert a == 3 * qa + a % 3 && b == 3 * qb + b % 3;
  }

  /** With the configured cap of 72 rows: three showings for each of the 24
      hours, and the last showing, id 72, at hour 23. */
  lemma ConfiguredShowings()
    ensures ShowingCount(72) == 72
    ensures ShowingRowOf(71, 0).hour == 23 && ShowingRowOf(71, 0).period == Night
    ensures ShowingRowOf(0, 0).hour == 0 && ShowingRowOf(0, 0).period == Night
    ensures ShowingRowOf(18, 0).period == Morning && ShowingRowOf(36, 0).period == Afternoon
  {
  }
}
