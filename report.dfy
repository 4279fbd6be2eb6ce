/** The rows of the expiry report and how they are enriched with an
    expiration date, the days left and an urgency label (src/index.js). */
module Report {
  import opened Classifier

  datatype Option<T> = None | Some(value: T)

  /** Milliseconds in a day, the divisor of the days-left computation. */
  const MsPerDay: int := 86_400_000

  /** The stubbed expiration date given to rezo.net. */
  const RezoDomain: string := "rezo.net"
  const RezoExpiration: string := "2020-03-07T05:00:00Z"
  /** The stubbed expiration date given to every other domain. */
  const DefaultExpiration: string := "2023-05-20T14:01:45Z"

  /** Whole days from `nowMs` to `expirationMs` (both epoch milliseconds),
      rounded down, so a date already passed gives a negative count. */
  function DaysLeft(expirationMs: int, nowMs: int): (d: int)
    ensures d * MsPerDay <= expirationMs - nowMs < (d + 1) * MsPerDay
    ensures d < 0 <==> expirationMs < nowMs
  {
    (expirationMs - nowMs) / MsPerDay
  }

  /** As time passes, the days left to a fixed expiration never grow. */
  lemma DaysLeftAntitone(expirationMs: int, n1: int, n2: int)
    requires n1 <= n2
    ensures DaysLeft(expirationMs, n2) <= DaysLeft(expirationMs, n1)
  {
  }

  /** As time passes, a domain's label never becomes less urgent. */
  lemma UrgencyNeverRelaxes(expirationMs: int, n1: int, n2: int)
    requires n1 <= n2
    ensures Rank(GetClass(DaysLeft(expirationMs, n2))) <= Rank(GetClass(DaysLeft(expirationMs, n1)))
  {
    DaysLeftAntitone(expirationMs, n1, n2);
    GetClassMonotone(DaysLeft(expirationMs, n2), DaysLeft(expirationMs, n1));
  }

  /** The fields of a row at one moment. The last three are absent until
      the row has been enriched; `urgency` is the source's `class` field. */
  datatype RowValue = RowValue(
    domain: string,
    name: string,
    description: string,
    url: string,
    expirationDate: Option<string>,
    daysLeft: Option<int>,
    urgency: Option<Urgency>)

  /** What enriching a row at time `nowMs` makes of it; `toEpochMs` stands
      for the runtime's parsing of an ISO-8601 date. */
  function Enrich(v: RowValue, nowMs: int, toEpochMs: string -> int): (r: RowValue)
    ensures r.domain == v.domain && r.name == v.name
    ensures r.description == v.description && r.url == v.url
    ensures r.expirationDate.Some?
    ensures r.expirationDate.value == RezoExpiration <==> v.domain == RezoDomain
    ensures r.expirationDate.value == DefaultExpiration <==> v.domain != RezoDomain
    ensures r.daysLeft == Some(DaysLeft(toEpochMs(r.expirationDate.value), nowMs))
    ensures r.urgency == Some(GetClass(r.daysLeft.value))
    ensures r.daysLeft.value < 0 <==> toEpochMs(r.expirationDate.value) < nowMs
  {
    var expiration := if v.domain == RezoDomain then RezoExpiration else DefaultExpiration;
    var days := DaysLeft(toEpochMs(expiration), nowMs);
    v.(expirationDate := Some(expiration), daysLeft := Some(days), urgency := Some(GetClass(days)))
  }

  /** Enriching an enriched row again at the same time changes nothing. */
  lemma EnrichIdempotent(v: RowValue, nowMs: int, toEpochMs: string -> int)
    ensures Enrich(Enrich(v, nowMs, toEpochMs), nowMs, toEpochMs) == Enrich(v, nowMs, toEpochMs)
  {
  }

  /** A row of the report, a mutable record shared by reference. */
  class Row {
    var domain: string
    var name: string
    var description: string
    var url: string
    var expirationDate: Option<string>
    var daysLeft: Option<int>
    var urgency: Option<Urgency>

    /** The row's current fields as a value. */
    function Value(): RowValue
      reads this
    {
      RowValue(domain, name, description, url, expirationDate, daysLeft, urgency)
    }

    /** A row as loaded: only the descriptive fields are present. */
    constructor (domain: string, name: string, description: string, url: string)
      ensures Value() == RowValue(domain, name, description, url, None, None, None)
    {
      this.domain := domain;
      this.name := name;
      this.description := description;
      this.url := url;
      this.expirationDate := None;
      this.daysLeft := None;
      this.urgency := None;
    }
  }

  /** The loader stub: whatever the text, two fresh rows, rezo.net then
      visionscarto.net. */
  method ParseCsv(text: string) returns (rows: seq<Row>)
    ensures |rows| == 2 && fresh(rows[0]) && fresh(rows[1]) && rows[0] != rows[1]
    ensures rows[0].Value() == RowValue(RezoDomain, "Rezo", "Le réseau des copains",
      "https://rezo.net", None, None, None)
    ensures rows[1].Value() == RowValue("visionscarto.net", "Visionscarto",
      "Réseau indépendant de recherche sur les cartes et les représentations",
      "https://visionscarto.net", None, None, None)
  {
    var rezo := new Row(RezoDomain, "Rezo", "Le réseau des copains", "https://rezo.net");
    var visionscarto := new Row("visionscarto.net", "Visionscarto",
      "Réseau indépendant de recherche sur les cartes et les représentations",
      "https://visionscarto.net");
    rows := [rezo, visionscarto];
  }

  /** Enriches `row` in place at time `nowMs` and hands back the same row. */
  method AddDateToRow(row: Row, nowMs: int, toEpochMs: string -> int) returns (rowOK: Row)
    modifies row
    ensures rowOK == row
    ensures row.Value() == Enrich(old(row.Value()), nowMs, toEpochMs)
  {
    if row.domain == RezoDomain {
      row.expirationDate := Some(RezoExpiration);
    } else {
      row.expirationDate := Some(DefaultExpiration);
    }
    row.daysLeft := Some(DaysLeft(toEpochMs(row.expirationDate.value), nowMs));
    row.urgency := Some(GetClass(row.daysLeft.value));
    rowOK := row;
  }

  /** Enriches every row in order and collects them: the result holds the
      very same row objects in the input order, each now enriched. A row
      listed twice is enriched twice, which leaves it as after the first time. */
  method AddDate(rows: seq<Row>, nowMs: int, toEpochMs: string -> int) returns (rowsOK: seq<Row>)
    modifies rows
    ensures rowsOK == rows
    ensures forall j :: 0 <= j < |rows| ==> rows[j].Value() == Enrich(old(rows[j].Value()), nowMs, toEpochMs)
  {
    ghost var initial := map r | r in rows :: r.Value();
    ghost var processed: set<Row> := {};
    rowsOK := [];
    for i := 0 to |rows|
      invariant rowsOK == rows[..i]
      invariant processed <= initial.Keys
      invariant forall r :: r in rowsOK ==> r in processed
      invariant forall r :: r in initial && r !in processed ==> r.Value() == initial[r]
      invariant forall r :: r in processed ==> r.Value() == Enrich(initial[r], nowMs, toEpochMs)
    {
      var row := rows[i];
      EnrichIdempotent(initial[row], nowMs, toEpochMs);
      var rowOK := AddDateToRow(row, nowMs, toEpochMs);
      rowsOK := rowsOK + [rowOK];
      assert rows[..i + 1] == rows[..i] + [row];
      processed := processed + {row};
    }
  }
}
