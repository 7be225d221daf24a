/** The four row types of the dealership store (Cliente, TestDrive,
    Financiamento, Vendas), the request bodies their create and update
    handlers accept, and the field constraints the schema declares.

    Money columns declared DECIMAL(10,2) are integer cents. A JSON `null`
    and an absent key are both `None` in a create body; an update body
    tells them apart with `Field`. */
module Records {

  datatype Option<+T> = None | Some(value: T)

  /** One attribute of a JSON update body: the key is missing, its value is
      `null`, or it carries a value. */
  datatype Field<+T> = Absent | Null | Given(value: T)

  /** Auto-increment primary keys. */
  type Id = int

  /** A DECIMAL(10,2) amount in cents. */
  type Cents = int

  /** The instant a Venda is recorded; supplied by the caller. */
  type Timestamp = int

  // ---------------------------------------------------------------------
  // Declared constraints
  // ---------------------------------------------------------------------

  /** The 27 Brazilian state codes allowed in Cliente.estado. */
  const UfCodes: seq<string> :=
    ["AC", "AL", "AP", "AM", "BA", "CE", "DF", "ES", "GO", "MA",
     "MT", "MS", "MG", "PA", "PB", "PR", "PE", "PI", "RJ", "RN",
     "RS", "RO", "RR", "SC", "SP", "SE", "TO"]

  /** The instalment counts allowed in Financiamento.parcelas. */
  const ParcelasPermitidas: seq<int> := [12, 24, 36, 48, 60, 72]

  /** Length of a plain STRING column (VARCHAR(255)). */
  const VarcharMax: nat := 255

  /** Length of the cpf column, STRING(11): at most 11 characters. */
  const CpfMax: nat := 11

  /** Largest magnitude of a DECIMAL(10,2) value, 99999999.99, in cents. */
  const DecimalMax: int := 9_999_999_999

  predicate FitsDecimal(v: Cents) {
    -DecimalMax <= v <= DecimalMax
  }

  /** A stored plain STRING value. */
  predicate FitsVarchar(s: string) {
    |s| <= VarcharMax
  }

  /** Every character of `s` is a space. */
  predicate AllSpaces(s: string) {
    forall i :: 0 <= i < |s| ==> s[i] == ' '
  }

  /** A VARCHAR(n) column takes `s`: it fits, or nothing but spaces runs past
      the n-th character. MySQL drops such trailing spaces with a note, not an
      error, whatever the SQL mode. */
  predicate FitsColumn(s: string, n: nat) {
    |s| <= n || AllSpaces(s[n..])
  }

  /** What a VARCHAR(n) column stores for a value it takes: the value with
      the spaces past the n-th character dropped. */
  function Cut(s: string, n: nat): (r: string)
    ensures |r| <= n && r <= s
    ensures |s| <= n ==> r == s
    ensures |s| > n ==> r == s[..n]
    ensures FitsColumn(s, n) ==> AllSpaces(s[|r|..])
  {
    if |s| <= n then s else s[..n]
  }

  lemma UfCodesAreTwoLetterCodes()
    ensures |UfCodes| == 27
    ensures forall i :: 0 <= i < |UfCodes| ==> |UfCodes[i]| == 2
    ensures forall i, j :: 0 <= i < j < |UfCodes| ==> UfCodes[i] != UfCodes[j]
  {
  }

  // ---------------------------------------------------------------------
  // Cliente
  // ---------------------------------------------------------------------

  datatype Cliente = Cliente(
    nome: string,
    email: string,
    telefone: string,
    cpf: string,
    cidade: Option<string>,
    estado: Option<string>,
    renda: Option<Cents>)

  /** The column constraints of a stored Cliente. `allowNull: false` is
      already carried by the types of nome, email, telefone and cpf; an
      empty string satisfies it. */
  predicate ClienteOk(isEmail: string -> bool, c: Cliente) {
    && FitsVarchar(c.nome)
    && FitsVarchar(c.email) && isEmail(c.email)
    && FitsVarchar(c.telefone)
    && |c.cpf| <= CpfMax
    && (c.cidade.Some? ==> FitsVarchar(c.cidade.value))
    && (c.estado.Some? ==> c.estado.value in UfCodes)
    && (c.renda.Some? ==> FitsDecimal(c.renda.value))
  }

  /** The email validator accepts no address that ends in a space: the
      domain part of an address admits no whitespace. */
  ghost predicate NoTrailingSpace(isEmail: string -> bool) {
    forall s :: isEmail(s) ==> !EndsInSpace(s)
  }

  predicate EndsInSpace(s: string) {
    s != [] && s[|s| - 1] == ' '
  }

  /** The checks a Cliente instance passes on create or update: the
      validators run on the values as sent, then the columns take them,
      text that runs past its column only by spaces included. */
  predicate ClienteAccepted(isEmail: string -> bool, c: Cliente) {
    && FitsColumn(c.nome, VarcharMax)
    && FitsColumn(c.email, VarcharMax) && isEmail(c.email)
    && FitsColumn(c.telefone, VarcharMax)
    && FitsColumn(c.cpf, CpfMax)
    && (c.cidade.Some? ==> FitsColumn(c.cidade.value, VarcharMax))
    && (c.estado.Some? ==> c.estado.value in UfCodes)
    && (c.renda.Some? ==> FitsDecimal(c.renda.value))
  }

  /** The row the database holds for an accepted instance. */
  function StoredCliente(c: Cliente): Cliente {
    c.(nome := Cut(c.nome, VarcharMax),
       email := Cut(c.email, VarcharMax),
       telefone := Cut(c.telefone, VarcharMax),
       cpf := Cut(c.cpf, CpfMax),
       cidade := if c.cidade.Some? then Some(Cut(c.cidade.value, VarcharMax)) else None)
  }

  /** An accepted instance is stored as a row meeting the column
      constraints; only trailing spaces past a column are lost, and the
      email, estado and renda are kept as sent. */
  lemma StoredClienteOk(isEmail: string -> bool, c: Cliente)
    requires NoTrailingSpace(isEmail) && ClienteAccepted(isEmail, c)
    ensures ClienteOk(isEmail, StoredCliente(c))
    ensures var s := StoredCliente(c);
      && s.email == c.email && s.estado == c.estado && s.renda == c.renda
      && s.nome <= c.nome && AllSpaces(c.nome[|s.nome|..])
      && s.telefone <= c.telefone && AllSpaces(c.telefone[|s.telefone|..])
      && s.cpf <= c.cpf && AllSpaces(c.cpf[|s.cpf|..])
      && (s.cidade.Some? <==> c.cidade.Some?)
      && (c.cidade.Some? ==> s.cidade.value <= c.cidade.value && AllSpaces(c.cidade.value[|s.cidade.value|..]))
  {
  }

  /** A row that already meets the column constraints is accepted and
      stored as it is. */
  lemma ClienteOkIsStoredAsIs(isEmail: string -> bool, c: Cliente)
    requires ClienteOk(isEmail, c)
    ensures ClienteAccepted(isEmail, c) && StoredCliente(c) == c
  {
  }

  /** The attributes a Cliente create takes from its body, each possibly null. */
  datatype ClienteDraft = ClienteDraft(
    nome: Option<string>,
    email: Option<string>,
    telefone: Option<string>,
    cpf: Option<string>,
    cidade: Option<string>,
    estado: Option<string>,
    renda: Option<Cents>)

  /** The body that would carry exactly the attributes of `c`. */
  function DraftOfCliente(c: Cliente): ClienteDraft {
    ClienteDraft(Some(c.nome), Some(c.email), Some(c.telefone), Some(c.cpf),
                 c.cidade, c.estado, c.renda)
  }

  /** The instance a draft becomes, with its values as sent, or None when
      the ORM or the database refuses it: a required attribute is null, or
      a validator or a column refuses a value. */
  function ValidateCliente(isEmail: string -> bool, d: ClienteDraft): (r: Option<Cliente>)
    ensures r.Some? ==> ClienteAccepted(isEmail, r.value) && DraftOfCliente(r.value) == d
  {
    if d.nome.None? || d.email.None? || d.telefone.None? || d.cpf.None? then None
    else
      var c := Cliente(d.nome.value, d.email.value, d.telefone.value, d.cpf.value,
                       d.cidade, d.estado, d.renda);
      if ClienteAccepted(isEmail, c) then Some(c) else None
  }

  /** Validation is the partial inverse of DraftOfCliente: a body carrying an
      instance's attributes is accepted exactly when the instance passes. */
  lemma ValidateClienteRoundTrip(isEmail: string -> bool, c: Cliente)
    ensures ValidateCliente(isEmail, DraftOfCliente(c)) == (if ClienteAccepted(isEmail, c) then Some(c) else None)
  {
  }

  /** The reasons a Cliente body is refused, and only those. */
  lemma ValidateClienteRejects(isEmail: string -> bool, d: ClienteDraft)
    ensures ValidateCliente(isEmail, d).None? <==>
      || d.nome.None? || d.email.None? || d.telefone.None? || d.cpf.None?
      || !isEmail(d.email.value)
      || !FitsColumn(d.cpf.value, CpfMax)
      || (d.estado.Some? && d.estado.value !in UfCodes)
      || !FitsColumn(d.nome.value, VarcharMax) || !FitsColumn(d.email.value, VarcharMax)
      || !FitsColumn(d.telefone.value, VarcharMax)
      || (d.cidade.Some? && !FitsColumn(d.cidade.value, VarcharMax))
      || (d.renda.Some? && !FitsDecimal(d.renda.value))
  {
  }

  /** A cpf that runs past its 11 characters by one space is taken, and the
      row keeps its first 11 characters. */
  lemma CpfTrailingSpaceIsCut(isEmail: string -> bool, email: string)
    requires isEmail(email) && FitsVarchar(email)
    ensures var r := ValidateCliente(isEmail,
        ClienteDraft(Some("Ana"), Some(email), Some("111"), Some("12345678901 "), None, None, None));
      r.Some? && StoredCliente(r.value).cpf == "12345678901"
  {
    assert AllSpaces("12345678901 "[CpfMax..]);
  }

  /** Empty strings meet `allowNull: false`: a body whose nome, telefone and
      cpf are "" is accepted when its email passes the validator. */
  lemma EmptyStringsAccepted(isEmail: string -> bool, email: string)
    requires isEmail(email) && FitsVarchar(email)
    ensures ValidateCliente(isEmail, ClienteDraft(Some(""), Some(email), Some(""), Some(""), None, None, None))
            == Some(Cliente("", email, "", "", None, None, None))
  {
  }

  /** An update body: which Cliente attributes it mentions, and with what. */
  datatype ClientePatch = ClientePatch(
    nome: Field<string>,
    email: Field<string>,
    telefone: Field<string>,
    cpf: Field<string>,
    cidade: Field<string>,
    estado: Field<string>,
    renda: Field<Cents>)

  const NoChanges: ClientePatch :=
    ClientePatch(Absent, Absent, Absent, Absent, Absent, Absent, Absent)

  function Assign<T>(f: Field<T>, current: Option<T>): Option<T> {
    match f
    case Absent => current
    case Null => None
    case Given(v) => Some(v)
  }

  /** The attributes of `c` after the ORM sets the keys of `p` on it: a
      body naming no key leaves them as they are, and a required attribute
      becomes null exactly when the body sets it to null. */
  function MergeCliente(c: Cliente, p: ClientePatch): (r: ClienteDraft)
    ensures p == NoChanges ==> r == DraftOfCliente(c)
    ensures r.nome.None? <==> p.nome.Null?
    ensures r.email.None? <==> p.email.Null?
    ensures r.telefone.None? <==> p.telefone.Null?
    ensures r.cpf.None? <==> p.cpf.Null?
  {
    ClienteDraft(
      Assign(p.nome, Some(c.nome)),
      Assign(p.email, Some(c.email)),
      Assign(p.telefone, Some(c.telefone)),
      Assign(p.cpf, Some(c.cpf)),
      Assign(p.cidade, c.cidade),
      Assign(p.estado, c.estado),
      Assign(p.renda, c.renda))
  }

  /** An update that names no attribute leaves a valid row as it is. */
  lemma MergeNoChanges(isEmail: string -> bool, c: Cliente)
    requires ClienteOk(isEmail, c)
    ensures ValidateCliente(isEmail, MergeCliente(c, NoChanges)) == Some(c)
  {
  }

  /** An accepted update changes exactly the attributes its body supplies;
      a body that sets a required attribute to null is never accepted. */
  lemma UpdateChangesOnlySupplied(isEmail: string -> bool, c: Cliente, p: ClientePatch, c': Cliente)
    requires ValidateCliente(isEmail, MergeCliente(c, p)) == Some(c')
    ensures !p.nome.Null? && !p.email.Null? && !p.telefone.Null? && !p.cpf.Null?
    ensures c'.nome == (if p.nome.Given? then p.nome.value else c.nome)
    ensures c'.email == (if p.email.Given? then p.email.value else c.email)
    ensures c'.telefone == (if p.telefone.Given? then p.telefone.value else c.telefone)
    ensures c'.cpf == (if p.cpf.Given? then p.cpf.value else c.cpf)
    ensures c'.cidade == (if p.cidade.Absent? then c.cidade else if p.cidade.Null? then None else Some(p.cidade.value))
    ensures c'.estado == (if p.estado.Absent? then c.estado else if p.estado.Null? then None else Some(p.estado.value))
    ensures c'.renda == (if p.renda.Absent? then c.renda else if p.renda.Null? then None else Some(p.renda.value))
  {
  }

  // ---------------------------------------------------------------------
  // TestDrive
  // ---------------------------------------------------------------------

  /** `data` fills a DATEONLY column and `horario` a TIME column. The model
      keeps the text of the body; the database's own normalized form
      (YYYY-MM-DD, HH:MM:SS) is not modelled. */
  datatype TestDrive = TestDrive(
    data: string,
    horario: string,
    mensagem: Option<string>,
    clienteId: Option<Id>)

  datatype TestDriveDraft = TestDriveDraft(
    clienteId: Option<Id>,
    data: Option<string>,
    horario: Option<string>,
    mensagem: Option<string>)

  function DraftOfTestDrive(t: TestDrive): TestDriveDraft {
    TestDriveDraft(t.clienteId, Some(t.data), Some(t.horario), t.mensagem)
  }

  /** A TestDrive body is refused only when data or horario is null; the
      customer reference may be null. */
  function ValidateTestDrive(d: TestDriveDraft): (r: Option<TestDrive>)
    ensures r.Some? <==> d.data.Some? && d.horario.Some?
    ensures r.Some? ==> DraftOfTestDrive(r.value) == d
  {
    if d.data.None? || d.horario.None? then None
    else Some(TestDrive(d.data.value, d.horario.value, d.mensagem, d.clienteId))
  }

  // ---------------------------------------------------------------------
  // Financiamento
  // ---------------------------------------------------------------------

  datatype Financiamento = Financiamento(
    valorVeiculo: Cents,
    valorEntrada: Cents,
    parcelas: int,
    clienteId: Option<Id>)

  predicate FinanciamentoOk(f: Financiamento) {
    && FitsDecimal(f.valorVeiculo)
    && FitsDecimal(f.valorEntrada)
    && f.parcelas in ParcelasPermitidas
  }

  datatype FinanciamentoDraft = FinanciamentoDraft(
    clienteId: Option<Id>,
    valorVeiculo: Option<Cents>,
    valorEntrada: Option<Cents>,
    parcelas: Option<int>)

  function DraftOfFinanciamento(f: Financiamento): FinanciamentoDraft {
    FinanciamentoDraft(f.clienteId, Some(f.valorVeiculo), Some(f.valorEntrada), Some(f.parcelas))
  }

  function ValidateFinanciamento(d: FinanciamentoDraft): (r: Option<Financiamento>)
    ensures r.Some? ==> FinanciamentoOk(r.value) && DraftOfFinanciamento(r.value) == d
  {
    if d.valorVeiculo.None? || d.valorEntrada.None? || d.parcelas.None? then None
    else
      var f := Financiamento(d.valorVeiculo.value, d.valorEntrada.value, d.parcelas.value, d.clienteId);
      if FinanciamentoOk(f) then Some(f) else None
  }

  lemma ValidateFinanciamentoRoundTrip(f: Financiamento)
    ensures ValidateFinanciamento(DraftOfFinanciamento(f)) == (if FinanciamentoOk(f) then Some(f) else None)
  {
  }

  /** A Financiamento body is accepted only with both amounts present and an
      instalment count from {12, 24, 36, 48, 60, 72}. */
  lemma ValidateFinanciamentoRejects(d: FinanciamentoDraft)
    ensures ValidateFinanciamento(d).Some? ==>
      && d.valorVeiculo.Some? && d.valorEntrada.Some?
      && d.parcelas.Some? && d.parcelas.value in {12, 24, 36, 48, 60, 72}
    ensures ValidateFinanciamento(d).None? <==>
      || d.valorVeiculo.None? || d.valorEntrada.None? || d.parcelas.None?
      || d.parcelas.value !in ParcelasPermitidas
      || !FitsDecimal(d.valorVeiculo.value) || !FitsDecimal(d.valorEntrada.value)
  {
  }

  // ---------------------------------------------------------------------
  // Vendas
  // ---------------------------------------------------------------------

  datatype Venda = Venda(
    dataVenda: Timestamp,
    valorTotal: Cents,
    formaPagamento: string,
    observacoes: Option<string>,
    clienteId: Option<Id>,
    financiamentoId: Option<Id>)

  /** The column constraints of a stored sale. */
  predicate VendaOk(v: Venda) {
    FitsDecimal(v.valorTotal) && FitsVarchar(v.formaPagamento)
  }

  /** The checks a sale instance passes: formaPagamento may run past its
      column by spaces only. */
  predicate VendaAccepted(v: Venda) {
    FitsDecimal(v.valorTotal) && FitsColumn(v.formaPagamento, VarcharMax)
  }

  /** The row the database holds for an accepted sale. */
  function StoredVenda(v: Venda): Venda {
    v.(formaPagamento := Cut(v.formaPagamento, VarcharMax))
  }

  /** An accepted sale is stored as a row meeting the column constraints,
      losing only the spaces past formaPagamento's column; a row that
      already meets them is stored as it is. */
  lemma StoredVendaOk(v: Venda)
    ensures VendaAccepted(v) ==>
      && VendaOk(StoredVenda(v))
      && StoredVenda(v) == v.(formaPagamento := StoredVenda(v).formaPagamento)
      && StoredVenda(v).formaPagamento <= v.formaPagamento
      && AllSpaces(v.formaPagamento[|StoredVenda(v).formaPagamento|..])
    ensures VendaOk(v) ==> VendaAccepted(v) && StoredVenda(v) == v
  {
  }

  /** The Vendas body: dataVenda is not among the attributes the handler
      passes on, so it always takes its default. */
  datatype VendaDraft = VendaDraft(
    clienteId: Option<Id>,
    financiamentoId: Option<Id>,
    valorTotal: Option<Cents>,
    formaPagamento: Option<string>,
    observacoes: Option<string>)

  function DraftOfVenda(v: Venda): VendaDraft {
    VendaDraft(v.clienteId, v.financiamentoId, Some(v.valorTotal), Some(v.formaPagamento), v.observacoes)
  }

  /** The instance a Vendas body becomes when recorded at `now`. */
  function ValidateVenda(d: VendaDraft, now: Timestamp): (r: Option<Venda>)
    ensures r.Some? ==> VendaAccepted(r.value) && DraftOfVenda(r.value) == d && r.value.dataVenda == now
  {
    if d.valorTotal.None? || d.formaPagamento.None? then None
    else
      var v := Venda(now, d.valorTotal.value, d.formaPagamento.value, d.observacoes,
                     d.clienteId, d.financiamentoId);
      if VendaAccepted(v) then Some(v) else None
  }

  lemma ValidateVendaRoundTrip(v: Venda)
    ensures ValidateVenda(DraftOfVenda(v), v.dataVenda) == (if VendaAccepted(v) then Some(v) else None)
  {
  }
}
