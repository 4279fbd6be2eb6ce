# Domain expiry report — model of `src/index.js`

This project models the core of an early version of a domain-expiry
reporter. The reporter loads a list of domain rows and gives each row an
expiration date. It computes how many whole days are left before that date
and labels the row `past`, `urgent`, `soon` or `ok`. The rows are then
rendered into a report.

In this version the loader and the expiration lookup are stubs. The loader
returns two fixed rows, `rezo.net` and `visionscarto.net`. The expiration
date is `2020-03-07T05:00:00Z` for `rezo.net` and `2023-05-20T14:01:45Z` for
every other domain.

- `classifier.dfy`, module `Classifier`: the urgency labels, the thresholds
  0, 10 and 30, and `GetClass`. A reference definition counts the thresholds
  a day count has reached, and `GetClassRank` proves the label's rank equals
  that count. Monotonicity follows from it.
- `report.dfy`, module `Report`:
  - `DaysLeft` is the days-left computation.
  - `Row` is the row object. It is a class because the source updates rows
    in place.
  - `Enrich` is a pure function. It says what enriching a row makes of its
    fields.
  - `AddDateToRow` updates one row in place and is proved against `Enrich`.
  - `AddDate` runs the batch loop. It returns the very same row objects in
    input order, each enriched.
  - `ParseCsv` is the loader stub.

Time is an integer number of epoch milliseconds. The wall clock (`Date.now()`)
is the parameter `nowMs`. ISO-8601 date parsing (`new Date(s)`) is the
parameter `toEpochMs`. The JavaScript field `class` is named `urgency` here,
because `class` is a Dafny keyword. Fields the source has not yet set on a
row are `None`.

The wider design of this system describes a WHOIS client with retries, a
registrar check, an update date and a fifth label, `recent`. None of that is
in `src/index.js`, whose lookup is a stub. The model follows the code: four
labels, no update date and no network client.

## Model

| member | source | states |
|---|---|---|
| `Classifier.GetClass` | src/index.js:30-35 | every integer day count gets exactly one label: `Past` iff below 0, `Urgent` iff in [0, 10), `Soon` iff in [10, 30), `Ok` iff 30 or more |
| `Classifier.GetClassRank` | src/index.js:30-35 | the rank of the label (past 0 … ok 3) equals the number of the thresholds 0, 10, 30 that the day count has reached |
| `Classifier.GetClassMonotone` | src/index.js:31-34 | more days left never gives a more urgent label: the order past < urgent < soon < ok is non-decreasing in the day count |
| `Report.DaysLeft` | src/index.js:51 | the result is the floor of (expiration − now) / 86 400 000: `d * 86400000 <= exp - now < (d + 1) * 86400000`, and it is negative exactly when the expiration is before now |
| `Report.DaysLeftAntitone` | src/index.js:51 | for a fixed expiration, a later `now` never gives more days left |
| `Report.UrgencyNeverRelaxes` | src/index.js:51-52 | for a fixed expiration, a later `now` never gives a less urgent label |
| `Report.Enrich` | src/index.js:46-52 | domain, name, description and url are kept; the expiration date is `2020-03-07T05:00:00Z` iff the domain is `rezo.net` and `2023-05-20T14:01:45Z` iff it is not; daysLeft is `DaysLeft` of the parsed date and now, and is negative iff that date is before now; the label is `GetClass(daysLeft)` |
| `Report.EnrichIdempotent` | src/index.js:46-52 | enriching an already enriched row again at the same time changes nothing |
| `Report.Row.constructor` | src/index.js:7-17 | a loaded row has its domain, name, description and url, and no expiration date, days left or label yet |
| `Report.ParseCsv` | src/index.js:6-19 | whatever the text, two fresh, distinct rows: rezo.net then visionscarto.net, with the source's names, descriptions and urls |
| `Report.AddDateToRow` | src/index.js:37-54 | the row's new fields are `Enrich` of its old fields, and the row returned is the same object as the one given |
| `Report.AddDate` | src/index.js:21-28 | the result is the input sequence itself (same length, same objects, same order), and every row in it now holds `Enrich` of its fields before the call; a row listed twice ends as if enriched once |

## Left out

- Reading `src/domains.csv` and `src/index.mustache`, `writeHtml` and the `run` entry point (src/index.js:56-70) are file I/O and are not modelled.
- Mustache rendering (src/index.js:4, 65-66) is a call into a library that is not part of this model.
- The `sort` at src/index.js:66 is not modelled. Its comparator returns a boolean instead of a number, so the order it produces depends on the JavaScript engine.
- ISO-8601 parsing by `new Date(s)` is the parameter `toEpochMs`. An unparsable date, which gives `NaN` in JavaScript, cannot arise from the two stubbed dates and is not modelled.
- Report.AddDate: the clock is read once per batch (`nowMs`). The source calls `Date.now()` again for each row, so in the source two rows may be enriched with different clock readings.
- Report.DaysLeft: uses exact integer floor division. JavaScript divides in double precision before `Math.floor`, which gives the same result for millisecond timestamps of realistic size.
- `async`/`await` in `addDate` and `addDateToRow` is not modelled: the loop awaits each row in turn, so it behaves as plain sequential code.
- The commented-out `whois-api` lookup and `d3-dsv` parsing (src/index.js:1-2, 38-45, 63) are not live code and are not modelled.
