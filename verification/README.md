# geo-fence-point, modelled in Dafny

A model of the core of the geo-fence service in `models.go`: the well-known-text
(WKT, OGC Simple Feature Access Part 1, section 7) codec for points and polygons,
the construction of a fence name, and the transaction discipline of the fence query
`FetchUsersWithinFence` (insert the fence, run the containment query, commit).

Files:

- `wrappers.dfy` — `Option` and `Result`.
- `strings.dfy` (module `Strings`) — Go's `strings.Split` on a one-character
  separator, its inverse `Join`, character counting, and `%d` for a non-negative integer.
  These helpers carry the separator facts the codec proofs use.
- `geometry.dfy` (module `Geometry`) — `Point` as a class whose `Scan` overwrites its
  fields in place, `Point.Value`, the pure specification `ScanOutcome` of `Scan`, and
  `createPolygonWKT` as a loop proved against the reference text `PolygonWkt`.
- `fences.dfy` (module `Fences`) — the fence name, an abstract transaction `Tx` over a
  `Database` of visible fence rows, and `FetchUsersWithinFence`.

Floating point stays abstract. A float64 is `Num`: a real, NaN, +Inf or -Inf, with
rounding not modelled. `%f` is a parameter `fmt`. The only assumption about it is
`FmtClean`: its output never contains `,`, a space, `(` or `)`. `strconv.ParseFloat` is
a parameter `parse`. Like the Go function, it returns a value together with an optional
error.

The store is abstract too. Whether the fence insert, the query and the commit succeed,
and which rows the query returns, are fixed by an `Answers` value given when the
transaction begins. The random suffix `rand.Intn(1000)` is an input in `[0, 1000)`.

Behaviour of the code that the model keeps, though a reader might expect otherwise:

- `Scan` on `a,b` stores the result of `strconv.ParseFloat(a)` in `Longitude` even when
  that parse fails. The Go tuple assignment `p.Longitude, err = ...` always assigns, and
  `ParseFloat` returns 0 on a syntax error and ±Inf on a range error. So a failed first
  field still overwrites the longitude. A failed second field overwrites the latitude in
  the same way, after the longitude has already been replaced.
- A malformed number is reported with `strconv`'s own error (`BadNumber`), not with the
  `invalid Point format` error. Only a wrong number of comma-separated fields gives the
  format error.
- `Value` writes no comma, while `Scan` needs exactly one. No `Value`→`Scan` round trip
  exists (`ScanRejectsValue`).
- Empty `vertices`, or a vertex with fewer than two entries, makes `createPolygonWKT`
  panic. In `FetchUsersWithinFence` the deferred `recover` then rolls back, and the call
  returns no rows and no error. The model includes this path.
- A failed commit is not followed by a rollback. The model ends the transaction in
  `CommitFailed` and makes none of its writes visible.

## Model

| member | source | states |
|---|---|---|
| `Geometry.Point.Value` | models.go:19-22 | `POINT(` … `)` around the longitude's text, a space, then the latitude's text. Longitude comes first, even though the struct declares latitude first. With clean `%f` output the text splits back into exactly those two fields and contains no comma. It never fails. |
| `Geometry.ScanOutcome` | models.go:25-47 | Nil → no error, point untouched. A value that is not a string → `invalid Point`, point untouched. A string without exactly one comma → `invalid Point format` naming the string, point untouched. An error-free result happens only for nil or a string with one comma. |
| `Geometry.ScanTwoFields` | models.go:37-46 | For `a,b`: the longitude always becomes `parse(a)`'s value, even on failure. The latitude becomes `parse(b)`'s value only when `a` parsed. The call succeeds iff both parse. The error is the first failing field's parse error, naming that field. |
| `Geometry.Point.Scan` | models.go:24-47 | The point's new coordinates and the returned error are exactly `ScanOutcome` of the old coordinates. The update is done in place: longitude first, then latitude, with early returns in between. |
| `Geometry.ScanRejectsValue` | models.go:20-35 | With clean `%f` output, scanning what `Value` wrote returns the format error and leaves the point unchanged: no round trip. |
| `Geometry.CreatePolygonWkt` | models.go:132-139 | For a non-empty list of vertices, each with at least x and y, the loop that appends `x y,` per vertex and then trims the last character yields `PolygonWkt`. That is `POLYGON((` + the vertex texts joined by commas + `))`. |
| `Geometry.PolygonWktDecodes` | models.go:134-138 | The polygon text reads back as its vertices. Inside `POLYGON((`…`))` the comma-separated fields are the vertices in their original order. Each field splits on its one space into x then y, and entries past the second are ignored. The list does not end with a comma, and no closing vertex is added. |
| `Geometry.PolygonWktCommas` | models.go:134-138 | The polygon text contains exactly one comma fewer than there are vertices. |
| `Geometry.PolygonWktSingleVertex` | models.go:132-138 | One vertex gives `POLYGON((x y))`. |
| `Strings.Split` | models.go:33 | `strings.Split` on one character gives one more piece than there are separators. No piece holds the separator, and joining the pieces gives the input back. |
| `Strings.SplitJoin` | models.go:33 | Splitting a join gives the pieces back when none of them holds the separator. |
| `Strings.Decimal` | models.go:100 | `%d` of a non-negative number: one or more digits, no leading zero, denoting the number. |
| `Fences.FenceName` | models.go:99-100 | The fence name is the base name, `_`, then decimal digits that denote the random number. |
| `Fences.FenceNameDistinct` | models.go:99-100 | For suffixes in `[0, 1000)`, two fence names with the same base are equal iff their suffixes are. The suffix adds at most four characters. |
| `Fences.Tx.Begin` | models.go:91 | A new transaction is open, with no statements and no pending writes. |
| `Fences.Tx.CreateFence` | models.go:105 | The insert is logged. It returns the store's answer, and the fence becomes pending only when the insert succeeds. |
| `Fences.Tx.RawQuery` | models.go:112 | The query is logged and writes nothing. It returns the store's rows, or its error and no rows. |
| `Fences.Tx.RollbackTx` | models.go:105-107 | The transaction is rolled back and its pending writes are dropped. |
| `Fences.Tx.CommitTx` | models.go:125-127 | The commit is logged. If it succeeds, exactly the pending fences become visible. If it fails, nothing becomes visible and the transaction ends without a rollback. |
| `Fences.FetchUsersWithinFence` | models.go:89-130 | Statements run in the order create, query, commit; the fence is named `FenceName(name, N)` and holds `PolygonWkt(vertices)`. A failed insert → rollback, no query, its error. A failed query → rollback, its error. A failed commit → its error, no rollback. Success → exactly the query's rows, committed, with the one fence now visible. Malformed vertices → rollback, no rows, no error. Rows are returned iff the transaction committed, and nothing becomes visible otherwise. |

## Left out

- `InsertUsers` (models.go:69-79) and `Migrate` (models.go:65-67): each is a single store call with no logic of its own.
- The point-in-polygon test (`ST_Contains` in the query at models.go:112) belongs to the database. The query's rows are an opaque sequence.
- The numeric meaning of `%f` and `strconv.ParseFloat`. Both are parameters, and only the delimiter-freedom of `%f` output is assumed.
- `math/rand`: the suffix is an input in `[0, 1000)`.
- The `fmt.Println` debug output in `createPolygonWKT` (models.go:137).
- Panics raised inside the store client, and a `Begin` that fails. The only panic modelled is the one from malformed vertices.
- The timestamps and identity columns of the `User` and `GeoFence` rows.
- `main.go` (HTTP routing, JSON, request validation) and `db.go` (environment loading, connection setup) are not part of this model.
- `Geometry.Point.Value`: Go's `(string, error)` result is modelled as the string alone, because the error is always nil.
