# CloudCar dealership store — a Dafny model

CloudCar's back end is an Express server over a MySQL database, accessed
through the Sequelize ORM. It keeps four tables:

- Cliente: customers, with a unique email and a unique cpf.
- TestDrive: test-drive bookings.
- Financiamento: financing simulations.
- Vendas: sales.

Each table has a list route and a create route. Clientes can also be read,
updated and deleted by id. Deleting a customer makes the database run the
referential actions the associations declare:

- the customer's TestDrives and Financiamentos are deleted (CASCADE);
- the delete is refused while the customer has sales (RESTRICT);
- a sale backed by a deleted Financiamento loses that link (SET NULL).

The admin dashboard shows the four lists. A small set of pure helpers
decides what a cell shows when a value is missing.

This project models that core:

- `records.dfy` (module `Records`):
  - the four row types and the declared column constraints;
  - the request bodies the create handlers read, and the update body of a
    Cliente;
  - the validators that turn a body into a row or refuse it.
- `tables.dfy` (module `Tables`):
  - the four tables as one value, and the integrity they keep: valid rows,
    unique email and cpf, and foreign keys that resolve;
  - the customer delete with its CASCADE / RESTRICT / SET NULL effects;
  - the list-with-include joins the GET routes return.
- `store.dfy` (module `Store`):
  - a `Store` class whose fields are the four tables and their four
    auto-increment counters, updated in place;
  - one method per route, returning the HTTP status and the JSON body;
  - every method keeps the integrity invariant, and states the new state
    in terms of the functions of `Tables`.
- `display.dfy` (module `Display`): the dashboard helpers.
  - `value || '-'` is `OrDash`, and `row.Cliente?.x || '-'` is `ClienteCell`.
  - `formatTime` is `FormatTime`. The empty branch of `formatDate` is
    `FormatDate`.
  - The Cidade/UF column is `CidadeUf`.
  - The short tab label `label.split(' ')[0]` is `ShortLabel`, built on
    `Split`, with a split/join round trip.

Modelling conventions:

- Money columns (DECIMAL(10,2)) are integer cents. A DECIMAL(10,2) value
  has magnitude at most 99999999.99.
- A JSON `null` and an absent key are both `None` in a create body. The
  update body distinguishes them (`Field`: `Absent | Null | Given`),
  because Sequelize's `update` sets only the keys present.
- The database is taken to run in strict mode. STRING is VARCHAR(255) and
  `cpf` is STRING(11).
  - A string is refused with 400 when a character other than a space runs
    past its column. An amount outside DECIMAL(10,2) is refused too.
  - A string that runs past its column only by spaces is taken. MySQL
    drops those spaces with a note, in every SQL mode. The table stores the
    cut value (`StoredCliente`, `StoredVenda`). The 201 or 200 answer shows
    the instance as sent, because Sequelize does not re-read the row.
- The email-format validator of the validation library is a parameter
  (`isEmail`), fixed when the store is built. The store relies on one fact
  about it: it accepts no address ending in a space (`NoTrailingSpace`),
  because the domain part of an address admits no whitespace. So a stored
  email is never cut.
- The instant a sale is recorded (`DataTypes.NOW`) is a parameter of
  `PostVenda`.
- Every error that the ORM or the database raises becomes the body
  `ErroDoBanco`. Its message text is not modelled.
- Each table has its own counter, and ids start at 1. A list returns its
  rows in ascending id order.

Points of the code a reader might not expect:

- No foreign key is declared `allowNull: false`, so a TestDrive,
  Financiamento or Venda may be stored with a null `clienteId`, and a Venda
  with a null `financiamentoId`. A non-null key must name an existing row.
- `Financiamento.hasOne(Vendas)` adds no unique constraint, so nothing stops
  two sales from pointing to the same Financiamento.
- `cpf` is STRING(11) with no length validator: any string of at most 11
  characters is accepted, the empty string included. A longer one is
  accepted too when only spaces follow its 11th character. It is then
  stored cut to 11.
- No route looks a customer up by email or cpf and creates it when it is
  missing. `client/src/services/api.js` is not part of this model.

## Model

| member | source | states |
|---|---|---|
| Records.UfCodesAreTwoLetterCodes | server/server.js:60-67 | the allowed estado values are 27 distinct two-letter codes |
| Records.Cut | server/server.js:51-55 | what a VARCHAR(n) column stores is the value when it fits and exactly its first n characters otherwise; what it drops is only spaces when the column takes the value |
| Records.ClienteOk | server/server.js:34-73 | the column constraints of a stored Cliente: strings fit their columns, the email passes the validator, estado is a UF code, and renda fits DECIMAL(10,2) |
| Records.ValidateCliente | server/server.js:34-73 | an accepted Cliente body yields an instance carrying exactly the body's attributes and passing every validator and column; text may run past its column by spaces only |
| Records.ValidateClienteRoundTrip | server/server.js:34-73 | a body carrying an instance's attributes is accepted, yielding that instance, exactly when the instance passes the validators and the columns |
| Records.ValidateClienteRejects | server/server.js:34-73 | a Cliente body is refused if and only if one of these holds: a required attribute is null; the email fails the validator; estado is not a UF code; renda overflows DECIMAL(10,2); or a character other than a space runs past a string's column (11 for cpf, 255 for the others) |
| Records.StoredClienteOk | server/server.js:34-73 | an accepted instance is stored as a row meeting ClienteOk; the stored email, estado and renda are the ones sent, a cidade is stored exactly when one is sent, and nome, telefone, cpf and cidade lose only trailing spaces |
| Records.ClienteOkIsStoredAsIs | server/server.js:34-73 | a row that already meets the constraints is accepted and stored unchanged |
| Records.CpfTrailingSpaceIsCut | server/server.js:51-55 | a cpf of 11 digits followed by a space is accepted, and the row keeps the 11 digits |
| Records.EmptyStringsAccepted | server/server.js:35-55 | `allowNull: false` does not refuse empty strings: empty nome, telefone and cpf are accepted |
| Records.MergeNoChanges | server/server.js:229-236 | an update body that names no attribute leaves a valid row unchanged |
| Records.MergeCliente | server/server.js:235 | setting an update body on a row keeps the row when the body names no key, and makes a required attribute null exactly when the body sets it to null |
| Records.UpdateChangesOnlySupplied | server/server.js:229-236 | an accepted update changes exactly the attributes its body supplies, sets nullable ones to null on `null`, and is refused when it nulls a required attribute |
| Records.ValidateTestDrive | server/server.js:75-89 | a TestDrive body is accepted if and only if data and horario are present, and the row carries the body's attributes |
| Records.FinanciamentoOk | server/server.js:92-109 | the constraints of a Financiamento row: both amounts fit DECIMAL(10,2), and parcelas is one of 12, 24, 36, 48, 60, 72 |
| Records.ValidateFinanciamento | server/server.js:92-109 | an accepted Financiamento body yields a row meeting the constraints and carrying the body's attributes |
| Records.ValidateFinanciamentoRoundTrip | server/server.js:92-109 | a body carrying a row's attributes is accepted exactly when the row meets the schema |
| Records.ValidateFinanciamentoRejects | server/server.js:101-107 | a Financiamento body is accepted only with both amounts present and parcelas in {12, 24, 36, 48, 60, 72}, and refused for exactly the listed reasons |
| Records.VendaOk | server/server.js:112-131 | the constraints of a stored sale: valorTotal fits DECIMAL(10,2), and formaPagamento fits VARCHAR(255) |
| Records.ValidateVenda | server/server.js:112-131 | an accepted Vendas body yields an instance carrying the body's attributes, with dataVenda the recording instant; valorTotal fits DECIMAL(10,2), and formaPagamento runs past 255 characters by spaces only |
| Records.ValidateVendaRoundTrip | server/server.js:112-131 | a body carrying a sale's attributes, recorded at its instant, is accepted exactly when the sale passes the columns |
| Records.StoredVendaOk | server/server.js:122-125 | an accepted sale is stored as a row meeting VendaOk that differs only in trailing spaces dropped from formaPagamento, and a row meeting VendaOk is stored unchanged |
| Tables.Integrity | server/server.js:34-170 | the invariant of the tables: every row meets its constraints, email and cpf are unique, and every non-null foreign key names an existing row |
| Tables.FreeIffStillUnique | server/server.js:39-55 | the per-row uniqueness check holds exactly when storing the row keeps email and cpf unique |
| Tables.StoreClienteKeepsIntegrity | server/server.js:216-240 | storing a validated, unique Cliente (create or update) keeps the tables consistent |
| Tables.AddTestDriveKeepsIntegrity | server/server.js:271-281 | adding a TestDrive whose clienteId resolves keeps the tables consistent |
| Tables.AddFinanciamentoKeepsIntegrity | server/server.js:298-308 | adding a valid Financiamento whose clienteId resolves keeps the tables consistent |
| Tables.AddVendaKeepsIntegrity | server/server.js:325-339 | adding a valid sale whose clienteId and financiamentoId resolve keeps the tables consistent |
| Tables.Unlink | server/server.js:162-170 | SET NULL keeps every sale and changes only its financiamentoId: a link to a removed Financiamento is cleared, and any other link is kept |
| Tables.DeleteCascade | server/server.js:136-170 | after a customer delete, the customer is gone, no TestDrive or Financiamento of theirs is left, every sale remains, and no sale links to a Financiamento that was removed |
| Tables.DeleteCascadeEffect | server/server.js:136-170 | deleting a customer removes exactly it, its TestDrives and its Financiamentos; keeps every other row; and nulls financiamentoId exactly on sales backed by a removed Financiamento |
| Tables.DeleteUnlinksOtherCustomersSales | server/server.js:163-166 | SET NULL reaches sales of other customers: the sale stays, only its financing link is cleared |
| Tables.RestrictGuardsReferences | server/server.js:153-160 | on consistent tables, the cascade leaves no dangling key if and only if the customer has no sales (HasVendas), which is what RESTRICT refuses |
| Tables.DeleteCascadeKeepsIntegrity | server/server.js:243-254 | deleting a customer with no sales leaves the tables consistent: no dangling foreign key |
| Tables.IncludeCliente | server/server.js:261-263 | `include: Cliente` embeds the referenced customer with its id, or null for a null key |
| Tables.IncludeFinanciamento | server/server.js:315-317 | `include: Financiamento` embeds the referenced Financiamento with its id, or null for a null key |
| Tables.ListClientes | server/server.js:193-200 | the list holds every Cliente exactly once, each with its stored row, in ascending id order |
| Tables.ListTestDrives | server/server.js:259-268 | the list holds every TestDrive exactly once, in ascending id order, each with the customer its clienteId names embedded |
| Tables.ListFinanciamentos | server/server.js:286-295 | the list holds every Financiamento exactly once, in ascending id order, each with its customer embedded |
| Tables.ListVendas | server/server.js:313-322 | the list holds every sale exactly once, in ascending id order, each with its customer and its Financiamento embedded |
| Store.Store.constructor | server/server.js:172-181 | the store starts with four empty, consistent tables and every counter at 1 |
| Store.Store.Valid | server/server.js:34-170 | the store invariant: the tables keep Integrity, the email validator accepts no address ending in a space, and each counter is above every id in its table |
| Store.Store.GetClientes | server/server.js:193-200 | GET /api/clientes answers 200 with the full Cliente list |
| Store.Store.GetCliente | server/server.js:203-213 | GET /api/clientes/:id answers 200 with the row, or 404 "Cliente não encontrado" when the id is unknown |
| Store.Store.PostCliente | server/server.js:216-226 | POST /api/clientes stores a valid body under the next id, as the columns cut it, when the stored email and cpf are free. It answers 201 with the instance as sent. Otherwise it answers 400 and nothing changes. Integrity is kept |
| Store.Store.PutCliente | server/server.js:229-240 | PUT /api/clientes/:id answers 404 for an unknown id. Otherwise, when the merged row is valid and unique, it stores that row as the columns cut it and answers 200 with the instance. Else it answers 400 and nothing changes |
| Store.Store.DeleteCliente | server/server.js:243-254 | DELETE /api/clientes/:id answers 404 for an unknown id, 500 with nothing changed while the customer has sales, else 200 with the tables after the cascade |
| Store.Store.GetTestDrives | server/server.js:259-268 | GET /api/testdrives answers 200 with every TestDrive and its customer |
| Store.Store.PostTestDrive | server/server.js:271-281 | POST /api/testdrives stores a body with data, horario and a resolving clienteId under the next id (201), else 400 with nothing changed |
| Store.Store.GetFinanciamentos | server/server.js:286-295 | GET /api/financiamentos answers 200 with every Financiamento and its customer |
| Store.Store.PostFinanciamento | server/server.js:298-308 | POST /api/financiamentos stores a valid body with a resolving clienteId under the next id (201), else 400 with nothing changed |
| Store.Store.GetVendas | server/server.js:313-322 | GET /api/vendas answers 200 with every sale, its customer and its Financiamento |
| Store.Store.PostVenda | server/server.js:325-339 | POST /api/vendas stores a valid body under the next id when its clienteId and financiamentoId resolve, stamped with the current instant and cut by the columns. It answers 201 with the instance as sent. Else it answers 400 and nothing changes |
| Display.OrDash | client/src/componentes/pages/Admin.jsx:253 | `value \|\| '-'` is never blank: it is the value when that is non-empty, else "-" |
| Display.Truthy | client/src/componentes/pages/Admin.jsx:57 | JavaScript truthiness of a string that may be null or undefined: present and non-empty |
| Display.OrDashShowsValue | client/src/componentes/pages/Admin.jsx:362 | a cell shows "-" exactly when the value is null or empty, or is itself "-"; any other cell is the value |
| Display.FormatTime | client/src/componentes/pages/Admin.jsx:62-65 | formatTime never returns an empty string |
| Display.FormatTimeBlank | client/src/componentes/pages/Admin.jsx:63 | a missing or empty time shows "-" |
| Display.FormatTimePrefix | client/src/componentes/pages/Admin.jsx:64 | a present time shows a prefix of at most five characters, all of it when shorter |
| Display.FormatTimeOfTime | client/src/componentes/pages/Admin.jsx:62-65 | a stored HH:MM:SS horario shows as HH:MM, and the dropped part is the ":SS" suffix |
| Display.FormatTimeIdempotent | client/src/componentes/pages/Admin.jsx:62-65 | formatting what formatTime shows changes nothing |
| Display.FormatDate | client/src/componentes/pages/Admin.jsx:56-57 | a missing or empty date shows "-" |
| Display.CidadeUf | client/src/componentes/pages/Admin.jsx:200 | the column is "cidade/estado" when both are set, and "-" otherwise |
| Display.CidadeUfReadsBack | client/src/componentes/pages/Admin.jsx:200 | for a stored Cliente the column splits back into the city and its two-letter state code |
| Display.ClienteCell | client/src/componentes/pages/Admin.jsx:245-250 | a customer cell is "-" when no customer is embedded or the attribute is empty, and otherwise the customer's attribute |
| Display.TestDriveCustomerCells | client/src/componentes/pages/Admin.jsx:245-250 | on the test-drive tab a row with a null clienteId shows "-" in every customer column, and any other row shows its stored customer's values |
| Display.FinanciamentoCustomerCells | client/src/componentes/pages/Admin.jsx:294-306 | the same for the customer columns of the Financiamentos tab |
| Display.VendaCustomerCells | client/src/componentes/pages/Admin.jsx:352-353 | the same for the customer columns of the Vendas tab |
| Display.Split | client/src/componentes/pages/Admin.jsx:78 | `split` yields at least one piece, and no piece contains the separator |
| Display.SplitJoin | client/src/componentes/pages/Admin.jsx:78 | joining the pieces with the separator gives the string back |
| Display.ShortLabel | client/src/componentes/pages/Admin.jsx:78 | `label.split(' ')[0]` contains no space |
| Display.ShortLabelIsFirstWord | client/src/componentes/pages/Admin.jsx:78 | the short label is the prefix of the label before its first space, or the whole label when it has none |
| Display.ShortLabelOneWord | client/src/componentes/pages/Admin.jsx:78 | a label without a space is its own short label |
| Display.ShortLabelFirstOfMany | client/src/componentes/pages/Admin.jsx:78 | a label of several words shows only its first word |
| Display.TestDrivesTab | client/src/componentes/pages/Admin.jsx:146 | the "Test Drives" tab shows "Test" on small screens |

## Left out

- CORS, the JSON body parser, the `/` test route and `listen`: these are transport, with nothing to state about the tables.
- The database connection and `sequelize.sync()`: the store starts with empty tables, as after the first sync.
- The email grammar of the validation library: it is the `isEmail` parameter.
- Store.Store.GetClientes, GetTestDrives, GetFinanciamentos, GetVendas, GetCliente: the 500 answer on a storage failure is not modelled. The store never fails to read.
- Store.Store.DeleteCliente: the 500 answer is modelled only for the RESTRICT refusal, not for other storage failures.
- Store.Store.PostCliente, PutCliente, PostTestDrive, PostFinanciamento, PostVenda: a storage failure during the write is not modelled. The source answers 400 then, while these contracts promise 201 (200 for PutCliente) for every valid body that resolves.
- Display.FormatTime: it keeps the first five characters, where a character is a Unicode scalar value. `slice(0, 5)` keeps five UTF-16 code units. The two differ on text with characters outside the Basic Multilingual Plane. A stored TIME never holds such text, but the model accepts any text as horario.
- JSON values of the wrong type (a string where a number is expected, and so on): the bodies are typed, so these cannot be expressed.
- The path parameter arrives as a string. The model takes the parsed integer id.
- Store.Store.PutCliente: a body may carry keys other than the seven attributes (id, createdAt, updatedAt). They are not modelled, so neither is renumbering a row through `update`.
- createdAt and updatedAt, which Sequelize adds to every table: they are not modelled, and neither is the dashboard's `formatDate(createdAt)`.
- Records.ValidateTestDrive, Store.Store.PostTestDrive: the DATEONLY and TIME columns are not modelled. The database refuses malformed data and horario, but the model accepts any text. It also stores and lists the body's text unchanged, where the database holds and returns its normalized form: horario "14:30" comes back from GET /api/testdrives as "14:30:00", but in the model as "14:30".
- The byte limit of TEXT columns (mensagem, observacoes) is not modelled.
- Case-insensitive collation in MySQL's unique indexes: emails and cpfs are compared exactly.
- Auto-increment gaps left by failed inserts: a failed create does not advance the counter.
- The text of ORM and database error messages: every such error is `ErroDoBanco`.
- The order of an unordered `findAll`: the model returns ascending id order, which is one order MySQL may return.
- `formatCurrency`: it is the platform's `Intl.NumberFormat` currency formatting, which is floating point.
- Display.FormatDate: the non-empty branch is the platform's `toLocaleDateString('pt-BR')`, passed in as a parameter, so nothing is stated about it.
- Data loading, React state, tab switching and markup of the dashboard: these are UI, with no logic beyond the helpers modelled.
- Concurrent requests: every handler runs as one atomic step.
