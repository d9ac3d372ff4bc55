# TaxPal normalisation and start-up rules in Dafny

TaxPal is a personal-finance tracker: users record incomes and expenses and
list them by date range, category and source. This project models the parts
of it that carry logic of their own:

- the **income client service** (`create`, `update`, `list`): a request body
  is copied, a falsy `source` is filled from a truthy `description` (the
  alias rule), a `Date` is turned into its ISO string, and `list` sends one
  query parameter per truthy filter;
- the **expense client service**: the same date rule, no aliasing, and a
  `list` with `category`, `from` and `to` only;
- the **server entry point**: loading the first `.env` file that exists, the
  `PORT` fallback to 5000, the `CORS_ORIGIN` comma split with its localhost
  defaults, the `MONGODB_URI` / `MONGO_URI` / local default chain, and the
  process-wide `__taxpal_server_started` flag that lets `listen` happen once.

Files: `js.dfy` (optional properties, JavaScript truthiness, `string | Date`),
`jsstring.dfy` (`trim`, `split`, `join`), `income.dfy`, `expense.dfy`,
`server.dfy`.

Encoding choices:

- An optional property is `Option<T>`. `Some("")` is kept apart from `None`,
  because the spread copy keeps an empty string as it is. JavaScript
  truthiness of a string is `Truthy`: present and non-empty. A `Date` object
  is always truthy (`DateTruthy`).
- `string | Date` is `DateInput = Text(s) | Date(instant)`.
- `Date.prototype.toISOString`, `fs.existsSync` and `path.resolve` are
  foreign; they are parameters (`toISO`, `existsSync`, `resolve`) about
  which nothing is assumed.
- `process.env` is a `map<string, string>`; a missing key is `undefined`.
- The query parameters of `list` (Angular `HttpParams`, or the plain object
  handed to axios) are a `map<string, string>`.
- The start guard is the class `Server.Process`, whose `started` field is
  the global flag. `Start` runs the listen callback at once: the callback
  fires before any later `start` call.

The code does less than a server-side design would. The client services
validate nothing. Their only failure is the `RangeError` that `toISOString`
throws on an invalid `Date`, which the model leaves out (see "## Left out"). They do not default a missing `date`.
They pass a string `date`, `from` or `to` through without checking that it
is an ISO instant. The model follows the code in each of these points.

## Model

| member | source | states |
|---|---|---|
| `IncomeService.Create` | server/src/api/income/income.service.ts:37-40 | The payload is the normal form of the body. A truthy `source` is kept, even when `description` is set. A falsy `source` takes a truthy `description`. Otherwise `source` stays as given. `date` is coerced to its wire form. `description`, `category`, `amount` and `notes` are copied unchanged. `amount` stays present. |
| `IncomeService.Update` | server/src/api/income/income.service.ts:61-64 | The same alias and date rules hold for a partial patch. Every property not rewritten is copied unchanged. |
| `IncomeService.OnlySourceAndDateRewritten` | server/src/api/income/income.service.ts:38-40 | Normalisation changes nothing but `source` and `date`. Putting the original two back gives the original body. |
| `IncomeService.NormalisedIdempotent` | server/src/api/income/income.service.ts:38-40 | The normal form is normalised. A normalised body is a fixed point. So normalising twice equals normalising once. |
| `IncomeService.LabelResolved` | server/src/api/income/income.service.ts:39 | After normalisation `source` is truthy exactly when `source` or `description` was truthy. |
| `IncomeService.DescriptionOnlyPatch` | server/src/api/income/income.service.ts:62-63 | A patch with only a non-empty `description` gains a `source` equal to it. The description is kept. |
| `IncomeService.List` | server/src/api/income/income.service.ts:44-57 | Keys come only from source, category, from and to. Each key is present exactly when its filter is truthy. `source` and `category` go through verbatim. `from` and `to` become the ISO string of a `Date` and stay the same string otherwise. The map is empty exactly when no params are given or all are falsy. |
| `ExpenseService.Create` | server/src/api/expense/expense.service.ts:33-35 | A `Date` date becomes its ISO string. A string date is unchanged. `description`, `amount`, `category` and `notes` are copied unchanged. There is no `source` to introduce. |
| `ExpenseService.Update` | server/src/api/expense/expense.service.ts:54-56 | The same date rule holds for a partial patch. An absent date stays absent. Every other property is copied unchanged. |
| `ExpenseService.NormalisedIdempotent` | server/src/api/expense/expense.service.ts:34-35 | Only `date` is rewritten, and it is left in wire form. A body already in wire form is a fixed point, so normalising is idempotent. |
| `ExpenseService.List` | server/src/api/expense/expense.service.ts:39-50 | Keys come only from category, from and to, never `source`. Each key is present exactly when its filter is truthy. Values follow the verbatim and Date-to-ISO rules. The map is empty exactly when no params are given or all are falsy. |
| `Js.CoerceDateRule` | server/src/api/income/income.service.ts:40 | A `Date` becomes `toISO` of it. A string passes through. An absent date stays absent and gets no default. The result is always in wire form. |
| `Js.OrRule` | server/src/server.ts:75-78 | The JavaScript logical-or of two optional strings yields the first when it is truthy and the second otherwise. |
| `Js.DateStringRule` | server/src/api/income/income.service.ts:55-56 | `x instanceof Date ? x.toISOString() : String(x)` gives `toISO` of a `Date` and the string itself otherwise. |
| `JsString.TrimStart` | server/src/server.ts:59 | The result is the suffix left after dropping leading whitespace. It is empty or starts with a non-whitespace character. |
| `JsString.TrimEnd` | server/src/server.ts:59 | The result is the prefix left after dropping trailing whitespace. It is empty or ends with a non-whitespace character. |
| `JsString.Trim` | server/src/server.ts:59 | The result is an infix of its input. Everything before and after it is whitespace. It neither starts nor ends with whitespace. |
| `JsString.TrimWithoutWhitespace` | server/src/server.ts:59 | A string without whitespace is its own trim. |
| `JsString.TrimIdempotent` | server/src/server.ts:59 | Trimming twice equals trimming once. |
| `JsString.Split` | server/src/server.ts:59 | A split always has at least one piece. The empty string gives `[""]`. |
| `JsString.SplitCount` | server/src/server.ts:59 | A split has one more piece than the string has separators. |
| `JsString.SplitPiecesWithoutSeparator` | server/src/server.ts:59 | No piece of a split contains the separator. |
| `JsString.JoinSplit` | server/src/server.ts:59 | Joining the pieces with the separator gives back the original string. |
| `JsString.SplitPiecesWithoutWhitespace` | server/src/server.ts:59 | The pieces of a whitespace-free string are whitespace-free. |
| `Server.Candidates` | server/src/server.ts:7-11 | There are three candidates, tried in this order: `.env` in the working directory, `../.env` beside the module, then `../../.env`. |
| `Server.FirstExistingFrom` | server/src/server.ts:13-21 | The result is the least index at or after `from` whose candidate exists. It is absent exactly when none from there on exists. |
| `Server.LoadEnv` | server/src/server.ts:7-22 | At most one file is given to `dotenv.config`. It is the first candidate, in the tried order, that exists. `loaded` is false exactly when no candidate exists. |
| `Server.LoadDotEnv` | server/src/server.ts:7-22 | Over the program's own three candidates, the working-directory `.env` is loaded if it exists. Otherwise `../.env` is loaded, otherwise `../../.env`. At most one file is loaded. `loaded` is false exactly when none of the three exists. |
| `Server.Port` | server/src/server.ts:30 | The fallback 5000 is taken exactly when `PORT` is unset or empty. A truthy `PORT` gives exactly the `PORT` text that is handed to `Number`. |
| `Server.CorsOrigins` | server/src/server.ts:58-62 | An undefined `CORS_ORIGIN` gives the two localhost:4200 defaults. Otherwise each comma-separated piece is trimmed, in order. There is one more origin than there are commas. |
| `Server.CorsOriginEmpty` | server/src/server.ts:58-62 | A defined but empty `CORS_ORIGIN` yields `[""]`, not the defaults. |
| `Server.CorsOriginsRejoin` | server/src/server.ts:58-59 | For a whitespace-free `CORS_ORIGIN`, joining the origins with commas restores it. No origin contains a comma. |
| `Server.MongoUri` | server/src/server.ts:75-78 | The URI is the first truthy value of `MONGODB_URI` and `MONGO_URI`, falling back to `mongodb://localhost:27017/taxpal`. It is never empty. |
| `Server.Process.constructor` | server/src/server.ts:145 | A fresh process has the flag unset. No socket is open, no handler is registered and nothing is logged. |
| `Server.Process.Start` | server/src/server.ts:145-160 | A first call listens once and right away registers the SIGINT and SIGTERM handlers. Its listen callback then sets the flag before the mailer check, and records a caught `verifyMailer` failure without clearing the flag. Once the flag is set, `Start` opens no socket and registers no handlers. It only logs a skip, and the flag stays set. |
| `Server.StartTwice` | server/src/server.ts:145-160 | Starting a fresh process twice opens one socket, registers the two handlers once, and logs a skip for the second call. |

## Left out

- HTTP transport: the `HttpClient` and axios calls, the rxjs `Observable` wrapping, the base URLs and `remove`. They only forward requests. The record id of `update` only forms the URL.
- Angular dependency injection (`@Injectable`, constructor injection): framework plumbing.
- Properties outside the declared body types: a spread also copies them, but the bodies are modelled as their TypeScript types.
- Insertion order of the query parameters: the model keeps keys and values, not the order `HttpParams` or axios serialise them in.
- `toISOString` internals, including the `RangeError` it throws for an invalid `Date`. `toISO` is total and uninterpreted.
- `String(x)` on values outside `string | Date`: the TypeScript types rule them out.
- `Server.Port`: does not model `Number(...)`, the conversion of the PORT text to a number.
- `dotenv.config` is recorded as the path it receives. Its effect on `process.env` is not modelled.
- `path.resolve` and `fs.existsSync` are uninterpreted parameters.
- JavaScript strings are UTF-16 code units, while Dafny's `char` is a Unicode scalar value. This does not affect trimming: every whitespace code point is below U+FFFF.
- The dynamic `import` and `Promise.all` loading, the `process.exit(1)` abort, `mongoose.connect`, the `cors`/`express` middleware, Swagger setup, the mailer itself, and console output. The exceptions are the three lines `Start` records as events: the listen callback's "running" line, the caught mailer warning and the skip notice. These are I/O and runtime plumbing.
- The SIGINT/SIGTERM shutdown handlers' behaviour: only their registration is modelled.
- `Server.Process.Start`: assumes `app.listen` succeeds. If listening fails, for example because the port is taken, the callback never runs and the flag stays unset. The model does not capture that.
- `Server.Process.Start`: does not model the window between `listen` and its callback, in which a second concurrent `start` could also listen. Start is modelled sequentially.
- The `/__routes` inspector: it introspects Express internals.
- The route mounting list and `server/src/api/transaction/transaction.routes.ts`: declarative Express route tables whose controllers are not part of this model.
- `server/src/swagger.ts`: static OpenAPI configuration.
- Server-side validation, owner scoping, date-range filtering, required-field checks and bulk delete: no such logic appears in the modelled files.
