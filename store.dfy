/** The dealership store behind the REST handlers: four id-keyed tables
    updated in place, one auto-increment counter per table, and one method
    per route returning the HTTP status and the JSON body it sends. */
module Store {
  import opened Records
  import opened Tables

  /** The JSON bodies the handlers send. */
  datatype Body =
    | ClienteJson(cliente: ClienteRecord)
    | ClienteListJson(clientes: seq<ClienteRecord>)
    | TestDriveJson(id: Id, testDrive: TestDrive)
    | TestDriveListJson(testDrives: seq<TestDriveEntry>)
    | FinanciamentoJson(id: Id, financiamento: Financiamento)
    | FinanciamentoListJson(financiamentos: seq<FinanciamentoEntry>)
    | VendaJson(id: Id, venda: Venda)
    | VendaListJson(vendas: seq<VendaEntry>)
      /** `{ mensagem: text }` */
    | Mensagem(text: string)
      /** `{ erro: text }` with the handler's own text */
    | Erro(text: string)
      /** `{ erro: error.message }` for an error raised by the ORM or the database */
    | ErroDoBanco

  datatype Response = Response(status: int, body: Body)

  const ClienteNaoEncontrado: string := "Cliente não encontrado"
  const ClienteDeletado: string := "Cliente deletado com sucesso"

  class Store {
    /** The email-format validator of the validation library. */
    const isEmail: string -> bool

    var clientes: map<Id, Cliente>
    var testDrives: map<Id, TestDrive>
    var financiamentos: map<Id, Financiamento>
    var vendas: map<Id, Venda>

    /** The next id each table's auto-increment column hands out. */
    var nextCliente: Id
    var nextTestDrive: Id
    var nextFinanciamento: Id
    var nextVenda: Id

    function Snapshot(): Tables
      reads this
    {
      Tables(clientes, testDrives, financiamentos, vendas)
    }

    ghost predicate Valid()
      reads this
    {
      && NoTrailingSpace(isEmail)
      && Integrity(isEmail, Snapshot())
      && 1 <= nextCliente && KeysBelow(clientes, nextCliente)
      && 1 <= nextTestDrive && KeysBelow(testDrives, nextTestDrive)
      && 1 <= nextFinanciamento && KeysBelow(financiamentos, nextFinanciamento)
      && 1 <= nextVenda && KeysBelow(vendas, nextVenda)
    }

    constructor (isEmail: string -> bool)
      requires NoTrailingSpace(isEmail)
      ensures Valid() && this.isEmail == isEmail
      ensures clientes == map[] && testDrives == map[] && financiamentos == map[] && vendas == map[]
      ensures nextCliente == 1 && nextTestDrive == 1 && nextFinanciamento == 1 && nextVenda == 1
    {
      this.isEmail := isEmail;
      clientes, testDrives, financiamentos, vendas := map[], map[], map[], map[];
      nextCliente, nextTestDrive, nextFinanciamento, nextVenda := 1, 1, 1, 1;
    }

    // -------------------------------------------------------------------
    // /api/clientes
    // -------------------------------------------------------------------

    /** GET /api/clientes */
    method GetClientes() returns (res: Response)
      requires Valid()
      ensures res.status == 200 && res.body.ClienteListJson?
      ensures res.body.clientes == ListClientes(clientes, nextCliente)
    {
      res := Response(200, ClienteListJson(ListClientes(clientes, nextCliente)));
    }

    /** GET /api/clientes/:id */
    method GetCliente(id: Id) returns (res: Response)
      requires Valid()
      ensures id in clientes ==> res == Response(200, ClienteJson(ClienteRecord(id, clientes[id])))
      ensures id !in clientes ==> res == Response(404, Erro(ClienteNaoEncontrado))
    {
      if id !in clientes {
        return Response(404, Erro(ClienteNaoEncontrado));
      }
      res := Response(200, ClienteJson(ClienteRecord(id, clientes[id])));
    }

    /** POST /api/clientes: the row is stored under a fresh id when it passes
        validation and neither its email nor its cpf is taken. The answer
        shows the instance as sent; the table holds it as the columns cut it. */
    method PostCliente(body: ClienteDraft) returns (res: Response)
      requires Valid()
      modifies this
      ensures Valid()
      ensures testDrives == old(testDrives) && financiamentos == old(financiamentos) && vendas == old(vendas)
      ensures nextTestDrive == old(nextTestDrive) && nextFinanciamento == old(nextFinanciamento)
      ensures nextVenda == old(nextVenda)
      ensures var row := ValidateCliente(isEmail, body);
        if row.Some? && Free(old(clientes), StoredCliente(row.value), old(nextCliente)) then
          && res == Response(201, ClienteJson(ClienteRecord(old(nextCliente), row.value)))
          && old(nextCliente) !in old(clientes)
          && clientes == old(clientes)[old(nextCliente) := StoredCliente(row.value)]
          && nextCliente == old(nextCliente) + 1
        else
          res == Response(400, ErroDoBanco) && clientes == old(clientes) && nextCliente == old(nextCliente)
    {
      var row := ValidateCliente(isEmail, body);
      if row.None? || !Free(clientes, StoredCliente(row.value), nextCliente) {
        return Response(400, ErroDoBanco);
      }
      var stored := StoredCliente(row.value);
      StoredClienteOk(isEmail, row.value);
      StoreClienteKeepsIntegrity(isEmail, Snapshot(), nextCliente, stored);
      KeysBelowAdd(clientes, nextCliente, stored);
      clientes := clientes[nextCliente := stored];
      res := Response(201, ClienteJson(ClienteRecord(nextCliente, row.value)));
      nextCliente := nextCliente + 1;
    }

    /** PUT /api/clientes/:id: the attributes the body names are set on the
        row, which is saved if it still passes validation and uniqueness.
        The answer shows the instance with the body's values as sent. */
    method PutCliente(id: Id, patch: ClientePatch) returns (res: Response)
      requires Valid()
      modifies this
      ensures Valid()
      ensures testDrives == old(testDrives) && financiamentos == old(financiamentos) && vendas == old(vendas)
      ensures nextCliente == old(nextCliente) && nextTestDrive == old(nextTestDrive)
      ensures nextFinanciamento == old(nextFinanciamento) && nextVenda == old(nextVenda)
      ensures id !in old(clientes) ==>
        res == Response(404, Erro(ClienteNaoEncontrado)) && clientes == old(clientes)
      ensures id in old(clientes) ==>
        var row := ValidateCliente(isEmail, MergeCliente(old(clientes)[id], patch));
        if row.Some? && Free(old(clientes), StoredCliente(row.value), id) then
          res == Response(200, ClienteJson(ClienteRecord(id, row.value)))
          && clientes == old(clientes)[id := StoredCliente(row.value)]
        else
          res == Response(400, ErroDoBanco) && clientes == old(clientes)
    {
      if id !in clientes {
        return Response(404, Erro(ClienteNaoEncontrado));
      }
      var row := ValidateCliente(isEmail, MergeCliente(clientes[id], patch));
      if row.None? || !Free(clientes, StoredCliente(row.value), id) {
        return Response(400, ErroDoBanco);
      }
      var stored := StoredCliente(row.value);
      StoredClienteOk(isEmail, row.value);
      StoreClienteKeepsIntegrity(isEmail, Snapshot(), id, stored);
      clientes := clientes[id := stored];
      res := Response(200, ClienteJson(ClienteRecord(id, row.value)));
    }

    /** DELETE /api/clientes/:id: refused while the customer has sales;
        otherwise the customer goes and the referential actions run. */
    method DeleteCliente(id: Id) returns (res: Response)
      requires Valid()
      modifies this
      ensures Valid()
      ensures nextCliente == old(nextCliente) && nextTestDrive == old(nextTestDrive)
      ensures nextFinanciamento == old(nextFinanciamento) && nextVenda == old(nextVenda)
      ensures id !in old(clientes) ==>
        res == Response(404, Erro(ClienteNaoEncontrado)) && Snapshot() == old(Snapshot())
      ensures id in old(clientes) && HasVendas(old(vendas), id) ==>
        res == Response(500, ErroDoBanco) && Snapshot() == old(Snapshot())
      ensures id in old(clientes) && !HasVendas(old(vendas), id) ==>
        res == Response(200, Mensagem(ClienteDeletado)) && Snapshot() == DeleteCascade(old(Snapshot()), id)
    {
      if id !in clientes {
        return Response(404, Erro(ClienteNaoEncontrado));
      }
      if HasVendas(vendas, id) {
        return Response(500, ErroDoBanco);
      }
      DeleteCascadeKeepsIntegrity(isEmail, Snapshot(), id);
      var after := DeleteCascade(Snapshot(), id);
      clientes, testDrives, financiamentos, vendas :=
        after.clientes, after.testDrives, after.financiamentos, after.vendas;
      res := Response(200, Mensagem(ClienteDeletado));
    }

    // -------------------------------------------------------------------
    // /api/testdrives
    // -------------------------------------------------------------------

    /** GET /api/testdrives */
    method GetTestDrives() returns (res: Response)
      requires Valid()
      ensures res.status == 200 && res.body.TestDriveListJson?
      ensures res.body.testDrives == ListTestDrives(Snapshot(), nextTestDrive)
    {
      res := Response(200, TestDriveListJson(ListTestDrives(Snapshot(), nextTestDrive)));
    }

    /** POST /api/testdrives */
    method PostTestDrive(body: TestDriveDraft) returns (res: Response)
      requires Valid()
      modifies this
      ensures Valid()
      ensures clientes == old(clientes) && financiamentos == old(financiamentos) && vendas == old(vendas)
      ensures nextCliente == old(nextCliente) && nextFinanciamento == old(nextFinanciamento)
      ensures nextVenda == old(nextVenda)
      ensures var row := ValidateTestDrive(body);
        if row.Some? && Resolves(old(clientes), row.value.clienteId) then
          && res == Response(201, TestDriveJson(old(nextTestDrive), row.value))
          && old(nextTestDrive) !in old(testDrives)
          && testDrives == old(testDrives)[old(nextTestDrive) := row.value]
          && nextTestDrive == old(nextTestDrive) + 1
        else
          res == Response(400, ErroDoBanco) && testDrives == old(testDrives) && nextTestDrive == old(nextTestDrive)
    {
      var row := ValidateTestDrive(body);
      if row.None? || !Resolves(clientes, row.value.clienteId) {
        return Response(400, ErroDoBanco);
      }
      AddTestDriveKeepsIntegrity(isEmail, Snapshot(), nextTestDrive, row.value);
      KeysBelowAdd(testDrives, nextTestDrive, row.value);
      testDrives := testDrives[nextTestDrive := row.value];
      res := Response(201, TestDriveJson(nextTestDrive, row.value));
      nextTestDrive := nextTestDrive + 1;
    }

    // -------------------------------------------------------------------
    // /api/financiamentos
    // -------------------------------------------------------------------

    /** GET /api/financiamentos */
    method GetFinanciamentos() returns (res: Response)
      requires Valid()
      ensures res.status == 200 && res.body.FinanciamentoListJson?
      ensures res.body.financiamentos == ListFinanciamentos(Snapshot(), nextFinanciamento)
    {
      res := Response(200, FinanciamentoListJson(ListFinanciamentos(Snapshot(), nextFinanciamento)));
    }

    /** POST /api/financiamentos */
    method PostFinanciamento(body: FinanciamentoDraft) returns (res: Response)
      requires Valid()
      modifies this
      ensures Valid()
      ensures clientes == old(clientes) && testDrives == old(testDrives) && vendas == old(vendas)
      ensures nextCliente == old(nextCliente) && nextTestDrive == old(nextTestDrive)
      ensures nextVenda == old(nextVenda)
      ensures var row := ValidateFinanciamento(body);
        if row.Some? && Resolves(old(clientes), row.value.clienteId) then
          && res == Response(201, FinanciamentoJson(old(nextFinanciamento), row.value))
          && old(nextFinanciamento) !in old(financiamentos)
          && financiamentos == old(financiamentos)[old(nextFinanciamento) := row.value]
          && nextFinanciamento == old(nextFinanciamento) + 1
        else
          && res == Response(400, ErroDoBanco)
          && financiamentos == old(financiamentos) && nextFinanciamento == old(nextFinanciamento)
    {
      var row := ValidateFinanciamento(body);
      if row.None? || !Resolves(clientes, row.value.clienteId) {
        return Response(400, ErroDoBanco);
      }
      AddFinanciamentoKeepsIntegrity(isEmail, Snapshot(), nextFinanciamento, row.value);
      KeysBelowAdd(financiamentos, nextFinanciamento, row.value);
      financiamentos := financiamentos[nextFinanciamento := row.value];
      res := Response(201, FinanciamentoJson(nextFinanciamento, row.value));
      nextFinanciamento := nextFinanciamento + 1;
    }

    // -------------------------------------------------------------------
    // /api/vendas
    // -------------------------------------------------------------------

    /** GET /api/vendas */
    method GetVendas() returns (res: Response)
      requires Valid()
      ensures res.status == 200 && res.body.VendaListJson?
      ensures res.body.vendas == ListVendas(Snapshot(), nextVenda)
    {
      res := Response(200, VendaListJson(ListVendas(Snapshot(), nextVenda)));
    }

    /** POST /api/vendas, recorded at instant `now`. Nothing stops two sales
        from sharing one financiamentoId. */
    method PostVenda(body: VendaDraft, now: Timestamp) returns (res: Response)
      requires Valid()
      modifies this
      ensures Valid()
      ensures clientes == old(clientes) && testDrives == old(testDrives) && financiamentos == old(financiamentos)
      ensures nextCliente == old(nextCliente) && nextTestDrive == old(nextTestDrive)
      ensures nextFinanciamento == old(nextFinanciamento)
      ensures var row := ValidateVenda(body, now);
        if row.Some? && Resolves(old(clientes), row.value.clienteId)
                     && Resolves(old(financiamentos), row.value.financiamentoId) then
          && res == Response(201, VendaJson(old(nextVenda), row.value))
          && old(nextVenda) !in old(vendas)
          && vendas == old(vendas)[old(nextVenda) := StoredVenda(row.value)]
          && nextVenda == old(nextVenda) + 1
        else
          res == Response(400, ErroDoBanco) && vendas == old(vendas) && nextVenda == old(nextVenda)
    {
      var row := ValidateVenda(body, now);
      if row.None? || !Resolves(clientes, row.value.clienteId) || !Resolves(financiamentos, row.value.financiamentoId) {
        return Response(400, ErroDoBanco);
      }
      var stored := StoredVenda(row.value);
      StoredVendaOk(row.value);
      AddVendaKeepsIntegrity(isEmail, Snapshot(), nextVenda, stored);
      KeysBelowAdd(vendas, nextVenda, stored);
      vendas := vendas[nextVenda := stored];
      res := Response(201, VendaJson(nextVenda, row.value));
      nextVenda := nextVenda + 1;
    }
  }
}
