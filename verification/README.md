# gohttpd data store: statement builder and driver lookup

This project models the core of the data-store layer of gohttpd
(`store/store.go`) in Dafny:

- **The query descriptor** (`query` in the Go code) holds a table, a command,
  a list of columns and a list of filter columns. Its `String()` method turns
  these into SQL text and caches the first non-empty result in the private
  field `sqlStmt`:
  - INSERT/REPLACE renders `CMD INTO table (c1, c2) VALUES (:c1, :c2)`.
  - SELECT renders `SELECT c1, c2 FROM table`.
  - UPDATE renders `UPDATE table SET c1 = :c1, c2 = :c2`.
  - DELETE renders `DELETE FROM table`.
  - Each of these gets ` WHERE f1 = :f1 AND f2 = :f2` when there are filters.
  - Any other command renders nothing.
  - The table is lower-cased and the command upper-cased. The column `*`
    means "all columns": it stays in column lists but gets no placeholder
    and no assignment.
- **The driver lookup** (`New`) finds a factory by driver name in the
  registry and calls it with the configuration string. An unknown name gives
  the error `driver "<name>" not found`.

Layout:

- `text.dfy`, module `Text`: the string library calls the builder uses.
  These are `strings.ToLower`, `strings.ToUpper` (both on ASCII letters) and
  `strings.Join`.
- `statement.dfy`, module `Statement`:
  - The reference rendering, as functions: `NonStar`, `Placeholders`,
    `Assignments`, `ParamsText`, `SettersText`, `FiltersText`, `WhereClause`,
    `CommandClause` and `Render`.
  - The lemmas about the reference rendering.
  - The class `Query`, whose fields are those of the Go record. Its methods
    `Filters`, `Params` and `Setters` are the Go loops that collect fragments
    and join them. `String` is the caching renderer. Each method is proved
    against the reference functions.
- `registry.dfy`, module `Registry`: `New` over an explicit map from driver
  name to factory. The store that a factory builds is a type parameter.

Behaviour of the code that the model keeps:

- An INSERT or REPLACE gets one placeholder per column other than `*`, so the
  number of placeholders is the number of columns minus the occurrences of `*`
  (`PlaceholderCount`).
- An unknown driver yields the plain error `driver "<name>" not found`
  (`Registry.New`, `Registry.NotFoundMessage`).

## Model

| member | source | states |
|---|---|---|
| `Text.Lower` | store/store.go:55-57 | lower-casing keeps the length, maps A–Z to a–z, keeps every other character, and leaves no upper-case ASCII letter |
| `Text.Upper` | store/store.go:60-62 | upper-casing keeps the length, maps a–z to A–Z, keeps every other character, and leaves no lower-case ASCII letter |
| `Text.LowerIdempotent` | store/store.go:55-57 | lower-casing an already lower-cased name changes nothing |
| `Text.UpperIdempotent` | store/store.go:60-62 | upper-casing an already upper-cased command changes nothing |
| `Text.Join` | store/store.go:66-68 | joining no fragments gives the empty string; joining one fragment gives that fragment |
| `Text.JoinEnds` | store/store.go:66-68 | a joined text begins with the first fragment and ends with the last |
| `Text.JoinAppend` | store/store.go:72-78 | appending a fragment to the list appends the separator and that fragment to the joined text (just the fragment if the list was empty) |
| `Statement.NonStar` | store/store.go:83-88 | the columns left after skipping `*` contain no `*` and are no more than the input |
| `Statement.NonStarCounts` | store/store.go:83-88 | skipping `*` keeps every other column exactly as often as it occurs; without `*` the list is unchanged |
| `Statement.NonStarAppend` | store/store.go:83-88 | a further column is dropped if it is `*` and appended at the end otherwise, so column order is kept |
| `Statement.RenderEmptyIff` | store/store.go:112-146 | the statement is empty exactly when the table is empty or the upper-cased command is not INSERT, REPLACE, SELECT, UPDATE or DELETE; an empty table or command never yields a partial fragment |
| `Statement.RenderClauses` | store/store.go:149-153 | a supported statement is its command clause followed by the WHERE clause; with no filters nothing is appended |
| `Statement.DeleteIgnoresColumns` | store/store.go:140-143 | DELETE renders `DELETE FROM table` plus the WHERE clause, whatever the columns are |
| `Statement.PlaceholderCount` | store/store.go:81-90 | the VALUES list has as many placeholders as there are columns minus the occurrences of `*`; the i-th is `:` followed by the i-th column that is not `*` |
| `Statement.ColumnsAppend` | store/store.go:66-68 | every column, `*` included, appears verbatim in the column list, in order, separated by `", "` |
| `Statement.ParamsAppend` | store/store.go:81-90 | a further column adds `:column` at the end of the VALUES list, after `", "` unless it is the first, and adds nothing if it is `*` |
| `Statement.SettersAppend` | store/store.go:93-102 | a further column adds `column = :column` at the end of the SET list, after `", "` unless it is the first, and adds nothing if it is `*` |
| `Statement.WhereAppend` | store/store.go:72-78 | a further filter adds `f = :f` at the end of the WHERE clause; it opens the clause with ` WHERE ` or follows an ` AND ` |
| `Statement.TwoFiltersScenario` | store/store.go:149-153 | filters `[a, b]` give ` WHERE a = :a AND b = :b`, in that order and with AND only |
| `Statement.SelectAllScenario` | store/store.go:126-131 | `users`, `select`, columns `[*]` render `SELECT * FROM users` |
| `Statement.InsertScenario` | store/store.go:118-124 | `Users`, `INSERT`, columns `[name, email]` render `INSERT INTO users (name, email) VALUES (:name, :email)` |
| `Statement.UpdateScenario` | store/store.go:133-138 | `users`, `update`, columns `[email]`, filters `[id]` render `UPDATE users SET email = :email WHERE id = :id` |
| `Statement.DeleteScenario` | store/store.go:140-143 | `users`, `delete`, filters `[id]` render `DELETE FROM users WHERE id = :id` |
| `Statement.Query.constructor` | store/store.go:46-52 | a new descriptor holds the given table, command, columns and filters, and its cache is empty |
| `Statement.Query.Table` | store/store.go:55-57 | the table name is the lower-cased field (`Text.Lower`): same length, no upper-case letter, so it is empty only when the field is |
| `Statement.Query.Command` | store/store.go:60-62 | the command is the upper-cased field (`Text.Upper`): same length, no lower-case letter, so it is empty only when the field is |
| `Statement.Query.Columns` | store/store.go:66-68 | the column list is every column verbatim, `*` included, joined by `", "` (`ColumnsText`); it is empty for no columns and otherwise begins with the first column and ends with the last |
| `Statement.Query.Filters` | store/store.go:72-78 | the loop yields the equalities `f = :f` for all filters, in order, joined by `" AND "` |
| `Statement.Query.Params` | store/store.go:81-90 | the loop yields `:c` for each column other than `*`, in order, joined by `", "` |
| `Statement.Query.Setters` | store/store.go:93-102 | the loop yields `c = :c` for each column other than `*`, in order, joined by `", "` |
| `Statement.Query.String` | store/store.go:106-156 | a cached statement is returned unchanged whatever the fields hold now; otherwise the result is the rendering of the current fields. Only `sqlStmt` is written, and afterwards it holds the result |
| `Statement.RenderAgain` | store/store.go:108-110 | two consecutive calls return the same text; once a non-empty statement is cached, replacing the columns does not change what is returned |
| `Registry.New` | store/store.go:37-43 | an unknown driver gives the not-found error for that name; a known driver gives exactly what its factory returns for the configuration, success or error |
| `Registry.NewSucceedsIff` | store/store.go:37-43 | a store comes back exactly when the driver is registered and its factory succeeds, and it is the factory's store |
| `Registry.NewDependsOnlyOnDriver` | store/store.go:38-42 | entries for other drivers do not affect the result |
| `Registry.NotFoundMessage` | store/store.go:39 | the error text is `driver "`, then the name, then `" not found` |
| `Registry.NotFoundMessageInjective` | store/store.go:39 | different driver names give different error texts, so the error identifies the driver |

## Left out

- The `DataStore` interface (`Register`, `Prepare`, `Select`, `Insert`, `Exec`, `Get`, `String`, `Close`, store/store.go:23-32) declares method signatures only. Its implementations would make database calls, so they are not modelled.
- The `queries` record and the `Queries` interface (store/store.go:158-165) declare fields and a method signature but no behaviour. Loading query catalogs is not modelled.
- `New` reads the package-level `factories` registry (store/store.go:38). Its declaration and the code that fills it are not modelled. `Registry.New` takes the registry as an explicit map parameter.
- Registry.New: Go also returns a nil store next to the not-found error; the model returns only the error. A factory's `(DataStore, error)` pair is modelled as either a store or an error, so a factory returning `(nil, nil)` or a store together with an error cannot be expressed. A factory is a total function, so a factory that panics, or a key bound to a nil function (on which Go's `New` panics at store/store.go:41), is not modelled.
- Registry.NotFoundMessage: Go's `%q` escapes quotes, backslashes and non-printable characters in the driver name; the model inserts the name verbatim between double quotes.
- Text.Lower: maps only the ASCII letters A–Z; Unicode case mapping in `strings.ToLower` is not modelled.
- Text.Upper: maps only the ASCII letters a–z; Unicode case mapping in `strings.ToUpper` is not modelled.
- `fmt.Sprintf` with `%s` and `%v` on strings is modelled as string concatenation.
- Concurrent calls of `String()` racing on the `sqlStmt` cache are not modelled; the model is single-threaded.
- The HTTP handlers, JWT cookie service, middleware, endpoint table and process start-up (`api/`, `service/cookie.go`, `midware.go`, `main.go`) are outside this core. They are I/O, cryptography and library glue.
