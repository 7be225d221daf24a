/** The display helpers of the admin dashboard: how a cell shows a value
    that may be null, undefined or empty, the HH:MM time column, the
    Cidade/UF column and the short tab text. */
module Display {
  import opened Records
  import opened Tables

  const Dash: string := "-"

  /** JavaScript truthiness of a string that may be null or undefined. */
  predicate Truthy(v: Option<string>) {
    v.Some? && v.value != ""
  }

  /** `value || '-'`: a cell is never blank. */
  function OrDash(v: Option<string>): (r: string)
    ensures r != ""
    ensures r == Dash || Some(r) == v
    ensures Truthy(v) ==> r == v.value
  {
    if Truthy(v) then v.value else Dash
  }

  /** An optional text column shows "-" exactly when its value is null or
      empty (a value that is itself "-" looks the same). */
  lemma OrDashShowsValue(v: Option<string>)
    ensures OrDash(v) == Dash <==> !Truthy(v) || v.value == Dash
    ensures OrDash(v) != Dash ==> Some(OrDash(v)) == v
  {
  }

  // ---------------------------------------------------------------------
  // formatTime and formatDate
  // ---------------------------------------------------------------------

  function Min(a: int, b: int): int {
    if a <= b then a else b
  }

  /** `formatTime`: "-" for a missing time, else `slice(0, 5)`. */
  function FormatTime(t: Option<string>): (r: string)
    ensures r != ""
  {
    if !Truthy(t) then Dash else t.value[..Min(5, |t.value|)]
  }

  lemma FormatTimeBlank(t: Option<string>)
    requires !Truthy(t)
    ensures FormatTime(t) == Dash
  {
  }

  /** A present time shows its first five characters, or all of it when
      shorter. */
  lemma FormatTimePrefix(s: string)
    requires s != ""
    ensures var r := FormatTime(Some(s));
      && r <= s
      && |r| <= 5
      && (|s| <= 5 ==> r == s)
      && (|s| >= 5 ==> |r| == 5)
  {
  }

  predicate IsDigit(c: char) {
    '0' <= c <= '9'
  }

  /** The HH:MM:SS text the database returns for a TIME column. */
  predicate IsTimeText(s: string) {
    && |s| == 8
    && IsDigit(s[0]) && IsDigit(s[1]) && s[2] == ':'
    && IsDigit(s[3]) && IsDigit(s[4]) && s[5] == ':'
    && IsDigit(s[6]) && IsDigit(s[7])
  }

  predicate IsHourMinute(s: string) {
    && |s| == 5
    && IsDigit(s[0]) && IsDigit(s[1]) && s[2] == ':'
    && IsDigit(s[3]) && IsDigit(s[4])
  }

  /** A stored horario "HH:MM:SS" shows as "HH:MM". */
  lemma FormatTimeOfTime(s: string)
    requires IsTimeText(s)
    ensures IsHourMinute(FormatTime(Some(s)))
    ensures FormatTime(Some(s)) + s[5..] == s
  {
  }

  /** Formatting what formatTime shows changes nothing. */
  lemma FormatTimeIdempotent(t: Option<string>)
    ensures FormatTime(Some(FormatTime(t))) == FormatTime(t)
  {
  }

  /** `formatDate`: "-" for a missing date; a present one goes through the
      platform's pt-BR date formatting, `toLocaleDate`. */
  function FormatDate(d: Option<string>, toLocaleDate: string -> string): (r: string)
    ensures !Truthy(d) ==> r == Dash
  {
    if !Truthy(d) then Dash else toLocaleDate(d.value)
  }

  // ---------------------------------------------------------------------
  // Cliente columns
  // ---------------------------------------------------------------------

  /** The Cidade/UF column: "cidade/estado" when both are set, else "-". */
  function CidadeUf(cidade: Option<string>, estado: Option<string>): (r: string)
    ensures r != ""
    ensures Truthy(cidade) && Truthy(estado) ==> r == cidade.value + "/" + estado.value
    ensures !Truthy(cidade) || !Truthy(estado) ==> r == Dash
  {
    if Truthy(cidade) && Truthy(estado) then cidade.value + "/" + estado.value else Dash
  }

  /** For a stored Cliente the column can be read back: the state code is
      its last two characters, the city what precedes the slash. */
  lemma CidadeUfReadsBack(isEmail: string -> bool, c: Cliente)
    requires ClienteOk(isEmail, c) && Truthy(c.cidade) && c.estado.Some?
    ensures var r := CidadeUf(c.cidade, c.estado);
      && |r| == |c.cidade.value| + 3
      && r[|r| - 2..] == c.estado.value
      && r[..|r| - 3] == c.cidade.value
      && r[|r| - 3] == '/'
  {
    UfCodesAreTwoLetterCodes();
    var r := CidadeUf(c.cidade, c.estado);
    assert r == c.cidade.value + "/" + c.estado.value;
  }

  datatype Coluna = Nome | Cpf | Email | Telefone

  function Attribute(c: Cliente, col: Coluna): string {
    match col
    case Nome => c.nome
    case Cpf => c.cpf
    case Email => c.email
    case Telefone => c.telefone
  }

  /** `row.Cliente?.<column> || '-'` for the customer a list entry embeds. */
  function ClienteCell(e: Option<ClienteRecord>, col: Coluna): (r: string)
    ensures e.None? ==> r == Dash
    ensures e.Some? && Attribute(e.value.cliente, col) != "" ==> r == Attribute(e.value.cliente, col)
    ensures e.Some? && Attribute(e.value.cliente, col) == "" ==> r == Dash
  {
    OrDash(if e.None? then None else Some(Attribute(e.value.cliente, col)))
  }

  /** A test drive listed without a customer shows "-" in every customer
      column; one with a customer shows that customer's stored values. */
  lemma TestDriveCustomerCells(t: Tables, bound: Id, i: int, col: Coluna)
    requires KeysBelow(t.testDrives, bound) && Referential(t)
    requires 0 <= i < |ListTestDrives(t, bound)|
    ensures var e := ListTestDrives(t, bound)[i];
      match e.testDrive.clienteId
      case None => ClienteCell(e.cliente, col) == Dash
      case Some(c) => ClienteCell(e.cliente, col) == OrDash(Some(Attribute(t.clientes[c], col)))
  {
  }

  /** The same for the customer columns of the Financiamentos tab. */
  lemma FinanciamentoCustomerCells(t: Tables, bound: Id, i: int, col: Coluna)
    requires KeysBelow(t.financiamentos, bound) && Referential(t)
    requires 0 <= i < |ListFinanciamentos(t, bound)|
    ensures var e := ListFinanciamentos(t, bound)[i];
      match e.financiamento.clienteId
      case None => ClienteCell(e.cliente, col) == Dash
      case Some(c) => ClienteCell(e.cliente, col) == OrDash(Some(Attribute(t.clientes[c], col)))
  {
  }

  /** The same for the customer columns of the Vendas tab. */
  lemma VendaCustomerCells(t: Tables, bound: Id, i: int, col: Coluna)
    requires KeysBelow(t.vendas, bound) && Referential(t)
    requires 0 <= i < |ListVendas(t, bound)|
    ensures var e := ListVendas(t, bound)[i];
      match e.venda.clienteId
      case None => ClienteCell(e.cliente, col) == Dash
      case Some(c) => ClienteCell(e.cliente, col) == OrDash(Some(Attribute(t.clientes[c], col)))
  {
  }

  // ---------------------------------------------------------------------
  // Short tab text
  // ---------------------------------------------------------------------

  /** `s.split(sep)`: the pieces between separators, at least one. */
  function Split(s: string, sep: char): (parts: seq<string>)
    ensures |parts| >= 1
    ensures forall i :: 0 <= i < |parts| ==> sep !in parts[i]
  {
    if s == [] then [[]]
    else
      var rest := Split(s[1..], sep);
      if s[0] == sep then [[]] + rest
      else [[s[0]] + rest[0]] + rest[1..]
  }

  /** `parts.join(sep)` */
  function Join(parts: seq<string>, sep: char): string
    requires |parts| >= 1
  {
    if |parts| == 1 then parts[0] else parts[0] + [sep] + Join(parts[1..], sep)
  }

  lemma JoinCons(c: char, parts: seq<string>, sep: char)
    requires |parts| >= 1
    ensures Join([[c] + parts[0]] + parts[1..], sep) == [c] + Join(parts, sep)
  {
    var ps := [[c] + parts[0]] + parts[1..];
    assert ps[1..] == parts[1..];
  }

  /** Joining the pieces with the separator gives the string back. */
  lemma {:induction false} SplitJoin(s: string, sep: char)
    ensures Join(Split(s, sep), sep) == s
  {
    if s != [] {
      var rest := Split(s[1..], sep);
      SplitJoin(s[1..], sep);
      if s[0] == sep {
        assert ([[]] + rest)[1..] == rest;
      } else {
        JoinCons(s[0], rest, sep);
      }
      assert s == [s[0]] + s[1..];
    }
  }

  /** The short tab text, `text.split(' ')[0]`. */
  function ShortLabel(text: string): (r: string)
    ensures ' ' !in r
  {
    Split(text, ' ')[0]
  }

  /** The short text is the text before the first space, or the whole
      text when it has none. */
  lemma {:induction false} ShortLabelIsFirstWord(text: string)
    ensures var r := ShortLabel(text);
      && r <= text
      && ' ' !in r
      && (r == text || text[|r|] == ' ')
  {
    if text != [] && text[0] != ' ' {
      ShortLabelIsFirstWord(text[1..]);
    }
  }

  /** A text without a space is its own short text. */
  lemma {:induction false} ShortLabelOneWord(w: string)
    requires ' ' !in w
    ensures ShortLabel(w) == w
  {
    ShortLabelIsFirstWord(w);
  }

  /** A text of several words shows only its first one. */
  lemma {:induction false} ShortLabelFirstOfMany(w: string, rest: string)
    requires ' ' !in w
    ensures ShortLabel(w + " " + rest) == w
  {
    var text := w + " " + rest;
    ShortLabelIsFirstWord(text);
    var r := ShortLabel(text);
    assert text[|w|] == ' ';
    assert text[..|w|] == w;
  }

  /** The dashboard's "Test Drives" tab shows "Test" on small screens. */
  lemma TestDrivesTab()
    ensures ShortLabel("Test Drives") == "Test"
  {
    assert "Test Drives" == "Test" + " " + "Drives";
    ShortLabelFirstOfMany("Test", "Drives");
  }
}
