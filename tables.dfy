/** The four tables as one value, the integrity the schema's constraints and
    associations impose on them, what a customer delete does across the
    tables (CASCADE, RESTRICT, SET NULL), and the list-with-include joins. */
module Tables {
  import opened Records

  datatype Tables = Tables(
    clientes: map<Id, Cliente>,
    testDrives: map<Id, TestDrive>,
    financiamentos: map<Id, Financiamento>,
    vendas: map<Id, Venda>)

  // ---------------------------------------------------------------------
  // Integrity
  // ---------------------------------------------------------------------

  /** A nullable foreign key: null, or the key of a row of `m`. */
  predicate Resolves<T>(m: map<Id, T>, ref: Option<Id>) {
    ref.None? || ref.value in m
  }

  /** The two `unique: true` columns of Cliente. */
  predicate UniqueContacts(clientes: map<Id, Cliente>) {
    forall j, k :: j in clientes && k in clientes && j != k ==>
      clientes[j].email != clientes[k].email && clientes[j].cpf != clientes[k].cpf
  }

  /** Storing `c` under `self` keeps email and cpf unique: no other row
      already holds either value. */
  predicate Free(clientes: map<Id, Cliente>, c: Cliente, self: Id) {
    forall k :: k in clientes && k != self ==>
      clientes[k].email != c.email && clientes[k].cpf != c.cpf
  }

  /** Every non-null foreign key names an existing row. */
  predicate Referential(t: Tables) {
    && (forall k :: k in t.testDrives ==> Resolves(t.clientes, t.testDrives[k].clienteId))
    && (forall k :: k in t.financiamentos ==> Resolves(t.clientes, t.financiamentos[k].clienteId))
    && (forall k :: k in t.vendas ==>
          Resolves(t.clientes, t.vendas[k].clienteId) && Resolves(t.financiamentos, t.vendas[k].financiamentoId))
  }

  predicate RowsValid(isEmail: string -> bool, t: Tables) {
    && (forall k :: k in t.clientes ==> ClienteOk(isEmail, t.clientes[k]))
    && (forall k :: k in t.financiamentos ==> FinanciamentoOk(t.financiamentos[k]))
    && (forall k :: k in t.vendas ==> VendaOk(t.vendas[k]))
  }

  predicate Integrity(isEmail: string -> bool, t: Tables) {
    RowsValid(isEmail, t) && UniqueContacts(t.clientes) && Referential(t)
  }

  /** The uniqueness check is exactly what keeps email and cpf unique. */
  lemma FreeIffStillUnique(clientes: map<Id, Cliente>, c: Cliente, self: Id)
    requires UniqueContacts(clientes)
    ensures Free(clientes, c, self) <==> UniqueContacts(clientes[self := c])
  {
    if !Free(clientes, c, self) {
      var k :| k in clientes && k != self && (clientes[k].email == c.email || clientes[k].cpf == c.cpf);
      assert clientes[self := c][k] == clientes[k];
      assert clientes[self := c][self] == c;
    }
  }

  /** Creating or updating a Cliente with a row that passed validation and
      the uniqueness check keeps the tables consistent. */
  lemma StoreClienteKeepsIntegrity(isEmail: string -> bool, t: Tables, id: Id, c: Cliente)
    requires Integrity(isEmail, t)
    requires ClienteOk(isEmail, c) && Free(t.clientes, c, id)
    ensures Integrity(isEmail, t.(clientes := t.clientes[id := c]))
  {
    FreeIffStillUnique(t.clientes, c, id);
  }

  lemma AddTestDriveKeepsIntegrity(isEmail: string -> bool, t: Tables, id: Id, td: TestDrive)
    requires Integrity(isEmail, t)
    requires Resolves(t.clientes, td.clienteId)
    ensures Integrity(isEmail, t.(testDrives := t.testDrives[id := td]))
  {
  }

  lemma AddFinanciamentoKeepsIntegrity(isEmail: string -> bool, t: Tables, id: Id, f: Financiamento)
    requires Integrity(isEmail, t)
    requires FinanciamentoOk(f) && Resolves(t.clientes, f.clienteId)
    ensures Integrity(isEmail, t.(financiamentos := t.financiamentos[id := f]))
  {
  }

  lemma AddVendaKeepsIntegrity(isEmail: string -> bool, t: Tables, id: Id, v: Venda)
    requires Integrity(isEmail, t)
    requires VendaOk(v) && Resolves(t.clientes, v.clienteId) && Resolves(t.financiamentos, v.financiamentoId)
    ensures Integrity(isEmail, t.(vendas := t.vendas[id := v]))
  {
  }

  // ---------------------------------------------------------------------
  // Customer delete: CASCADE, RESTRICT and SET NULL
  // ---------------------------------------------------------------------

  /** RESTRICT: some Vendas row belongs to customer `cid`. */
  predicate HasVendas(vendas: map<Id, Venda>, cid: Id) {
    exists k :: k in vendas && vendas[k].clienteId == Some(cid)
  }

  function TestDrivesOf(testDrives: map<Id, TestDrive>, cid: Id): set<Id> {
    set k | k in testDrives && testDrives[k].clienteId == Some(cid)
  }

  function FinanciamentosOf(financiamentos: map<Id, Financiamento>, cid: Id): set<Id> {
    set k | k in financiamentos && financiamentos[k].clienteId == Some(cid)
  }

  /** SET NULL: clear the financing reference of every sale that points to
      one of the `removed` Financiamentos. */
  function Unlink(vendas: map<Id, Venda>, removed: set<Id>): (r: map<Id, Venda>)
    ensures r.Keys == vendas.Keys
    ensures forall k :: k in r ==> r[k].financiamentoId.None? || r[k].financiamentoId.value !in removed
    ensures forall k :: k in r ==> r[k] == vendas[k].(financiamentoId := r[k].financiamentoId)
    ensures forall k :: k in r && r[k].financiamentoId.Some? ==> r[k].financiamentoId == vendas[k].financiamentoId
    ensures forall k :: k in vendas && (vendas[k].financiamentoId.None? || vendas[k].financiamentoId.value !in removed) ==>
      r[k] == vendas[k]
  {
    map k | k in vendas ::
      if vendas[k].financiamentoId.Some? && vendas[k].financiamentoId.value in removed
      then vendas[k].(financiamentoId := None)
      else vendas[k]
  }

  /** The tables after customer `cid` is deleted and the database has run
      the referential actions: its TestDrives and Financiamentos cascade,
      and sales backed by those Financiamentos lose their link. */
  function DeleteCascade(t: Tables, cid: Id): (r: Tables)
    ensures r.clientes.Keys == t.clientes.Keys - {cid}
    ensures forall k :: k in r.testDrives ==> r.testDrives[k].clienteId != Some(cid)
    ensures forall k :: k in r.financiamentos ==> r.financiamentos[k].clienteId != Some(cid)
    ensures r.vendas.Keys == t.vendas.Keys
    ensures forall k :: k in r.vendas && r.vendas[k].financiamentoId.Some? ==>
      r.vendas[k].financiamentoId.value in r.financiamentos || r.vendas[k].financiamentoId.value !in t.financiamentos
  {
    var gone := FinanciamentosOf(t.financiamentos, cid);
    Tables(
      t.clientes - {cid},
      t.testDrives - TestDrivesOf(t.testDrives, cid),
      t.financiamentos - gone,
      Unlink(t.vendas, gone))
  }

  /** What the delete removes, what it rewrites, and that nothing else changes. */
  lemma DeleteCascadeEffect(t: Tables, cid: Id)
    ensures var r := DeleteCascade(t, cid);
      && r.clientes.Keys == t.clientes.Keys - {cid}
      && (forall k :: k in r.clientes ==> r.clientes[k] == t.clientes[k])
      && (forall k :: k in r.testDrives <==> k in t.testDrives && t.testDrives[k].clienteId != Some(cid))
      && (forall k :: k in r.testDrives ==> r.testDrives[k] == t.testDrives[k])
      && (forall k :: k in r.financiamentos <==> k in t.financiamentos && t.financiamentos[k].clienteId != Some(cid))
      && (forall k :: k in r.financiamentos ==> r.financiamentos[k] == t.financiamentos[k])
      && r.vendas.Keys == t.vendas.Keys
      && (forall k :: k in r.vendas ==>
            r.vendas[k] == t.vendas[k].(financiamentoId := r.vendas[k].financiamentoId))
      && (forall k :: k in r.vendas ==>
            (r.vendas[k].financiamentoId == None <==>
               || t.vendas[k].financiamentoId == None
               || (t.vendas[k].financiamentoId.value in t.financiamentos
                   && t.vendas[k].financiamentoId.value !in r.financiamentos)))
      && (forall k :: k in r.vendas && r.vendas[k].financiamentoId != None ==>
            r.vendas[k].financiamentoId == t.vendas[k].financiamentoId)
  {
  }

  /** SET NULL reaches across customers: a sale of any customer backed by a
      Financiamento of the deleted customer keeps its row and loses only the
      link. */
  lemma DeleteUnlinksOtherCustomersSales(t: Tables, cid: Id, k: Id)
    requires k in t.vendas && t.vendas[k].clienteId != Some(cid)
    requires t.vendas[k].financiamentoId.Some?
    requires t.vendas[k].financiamentoId.value in t.financiamentos
    requires t.financiamentos[t.vendas[k].financiamentoId.value].clienteId == Some(cid)
    ensures k in DeleteCascade(t, cid).vendas
    ensures DeleteCascade(t, cid).vendas[k] == t.vendas[k].(financiamentoId := None)
  {
  }

  /** RESTRICT is exactly what the references need: on consistent tables,
      the cascade leaves no dangling key if and only if the customer has no
      sales. */
  lemma RestrictGuardsReferences(t: Tables, cid: Id)
    requires Referential(t) && cid in t.clientes
    ensures Referential(DeleteCascade(t, cid)) <==> !HasVendas(t.vendas, cid)
  {
    var r := DeleteCascade(t, cid);
    if HasVendas(t.vendas, cid) {
      var k :| k in t.vendas && t.vendas[k].clienteId == Some(cid);
      assert r.vendas[k].clienteId == Some(cid);
      assert !Resolves(r.clientes, r.vendas[k].clienteId);
    } else {
      forall k | k in r.vendas
        ensures Resolves(r.clientes, r.vendas[k].clienteId)
        ensures Resolves(r.financiamentos, r.vendas[k].financiamentoId)
      {
        assert t.vendas[k].clienteId != Some(cid);
      }
    }
  }

  /** Deleting a customer with no sales keeps the tables consistent. */
  lemma DeleteCascadeKeepsIntegrity(isEmail: string -> bool, t: Tables, cid: Id)
    requires Integrity(isEmail, t)
    requires !HasVendas(t.vendas, cid)
    ensures Integrity(isEmail, DeleteCascade(t, cid))
  {
    var r := DeleteCascade(t, cid);
    var gone := FinanciamentosOf(t.financiamentos, cid);
    forall k | k in r.vendas
      ensures Resolves(r.clientes, r.vendas[k].clienteId)
      ensures Resolves(r.financiamentos, r.vendas[k].financiamentoId)
      ensures VendaOk(r.vendas[k])
    {
      assert t.vendas[k].clienteId != Some(cid);
    }
    forall k | k in r.financiamentos
      ensures Resolves(r.clientes, r.financiamentos[k].clienteId)
    {
      assert k !in gone;
    }
    forall k | k in r.testDrives
      ensures Resolves(r.clientes, r.testDrives[k].clienteId)
    {
      assert k !in TestDrivesOf(t.testDrives, cid);
    }
  }

  // ---------------------------------------------------------------------
  // Listing with include
  // ---------------------------------------------------------------------

  /** Every key of `m` lies in [1, bound): the auto-increment counter is
      ahead of every id handed out. */
  predicate KeysBelow<T>(m: map<Id, T>, bound: Id) {
    forall k :: k in m ==> 1 <= k < bound
  }

  /** Handing out `bound` and moving the counter on keeps every key below it. */
  lemma KeysBelowAdd<T>(m: map<Id, T>, bound: Id, v: T)
    requires KeysBelow(m, bound) && 1 <= bound
    ensures bound !in m
    ensures KeysBelow(m[bound := v], bound + 1)
  {
  }

  /** The keys of `m` in [lo, hi), in ascending order. */
  function IdsBetween<T>(m: map<Id, T>, lo: Id, hi: Id): (ids: seq<Id>)
    ensures forall i :: 0 <= i < |ids| ==> ids[i] in m && lo <= ids[i] < hi
    ensures forall i, j :: 0 <= i < j < |ids| ==> ids[i] < ids[j]
    decreases hi - lo
  {
    if lo >= hi then []
    else if lo in m then [lo] + IdsBetween(m, lo + 1, hi)
    else IdsBetween(m, lo + 1, hi)
  }

  /** IdsBetween misses no key in range. */
  lemma {:induction false} IdsBetweenCovers<T>(m: map<Id, T>, lo: Id, hi: Id, k: Id)
    requires k in m && lo <= k < hi
    ensures k in IdsBetween(m, lo, hi)
    decreases hi - lo
  {
    if k != lo {
      IdsBetweenCovers(m, lo + 1, hi, k);
    }
  }

  function KeysBetween<T>(m: map<Id, T>, lo: Id, hi: Id): set<Id> {
    set k | k in m && lo <= k < hi
  }

  /** IdsBetween has one entry per key in range. */
  lemma {:induction false} IdsBetweenCount<T>(m: map<Id, T>, lo: Id, hi: Id)
    ensures |IdsBetween(m, lo, hi)| == |KeysBetween(m, lo, hi)|
    decreases hi - lo
  {
    if lo >= hi {
      assert KeysBetween(m, lo, hi) == {} by { forall k | k in KeysBetween(m, lo, hi) ensures false { } }
    } else {
      IdsBetweenCount(m, lo + 1, hi);
      if lo in m {
        assert KeysBetween(m, lo, hi) == {lo} + KeysBetween(m, lo + 1, hi);
        assert lo !in KeysBetween(m, lo + 1, hi);
      } else {
        assert KeysBetween(m, lo, hi) == KeysBetween(m, lo + 1, hi);
      }
    }
  }

  /** The ids of every row of a table whose keys are below `bound`, each
      once, in ascending order. */
  function AllIds<T>(m: map<Id, T>, bound: Id): (ids: seq<Id>)
    requires KeysBelow(m, bound)
    ensures |ids| == |m|
    ensures forall i, j :: 0 <= i < j < |ids| ==> ids[i] < ids[j]
    ensures forall i :: 0 <= i < |ids| ==> ids[i] in m
  {
    IdsBetweenCount(m, 1, bound);
    assert KeysBetween(m, 1, bound) == m.Keys;
    IdsBetween(m, 1, bound)
  }

  datatype ClienteRecord = ClienteRecord(id: Id, cliente: Cliente)
  datatype FinanciamentoRecord = FinanciamentoRecord(id: Id, financiamento: Financiamento)

  datatype TestDriveEntry = TestDriveEntry(id: Id, testDrive: TestDrive, cliente: Option<ClienteRecord>)
  datatype FinanciamentoEntry = FinanciamentoEntry(id: Id, financiamento: Financiamento, cliente: Option<ClienteRecord>)
  datatype VendaEntry = VendaEntry(
    id: Id, venda: Venda, cliente: Option<ClienteRecord>, financiamento: Option<FinanciamentoRecord>)

  /** `e` is what an include embeds for foreign key `ref`: null for a null
      key, otherwise the referenced row with its id. */
  predicate EmbedsCliente(clientes: map<Id, Cliente>, ref: Option<Id>, e: Option<ClienteRecord>) {
    match ref
    case None => e == None
    case Some(c) => c in clientes && e == Some(ClienteRecord(c, clientes[c]))
  }

  predicate EmbedsFinanciamento(financiamentos: map<Id, Financiamento>, ref: Option<Id>, e: Option<FinanciamentoRecord>) {
    match ref
    case None => e == None
    case Some(f) => f in financiamentos && e == Some(FinanciamentoRecord(f, financiamentos[f]))
  }

  /** `include: Cliente`, a left outer join on clienteId. */
  function IncludeCliente(clientes: map<Id, Cliente>, ref: Option<Id>): (r: Option<ClienteRecord>)
    ensures r.Some? ==> ref == Some(r.value.id) && r.value.id in clientes && r.value.cliente == clientes[r.value.id]
    ensures Resolves(clientes, ref) ==> EmbedsCliente(clientes, ref, r)
  {
    if ref.Some? && ref.value in clientes then Some(ClienteRecord(ref.value, clientes[ref.value])) else None
  }

  /** `include: Financiamento`, a left outer join on financiamentoId. */
  function IncludeFinanciamento(financiamentos: map<Id, Financiamento>, ref: Option<Id>): (r: Option<FinanciamentoRecord>)
    ensures r.Some? ==> ref == Some(r.value.id) && r.value.id in financiamentos
                        && r.value.financiamento == financiamentos[r.value.id]
    ensures Resolves(financiamentos, ref) ==> EmbedsFinanciamento(financiamentos, ref, r)
  {
    if ref.Some? && ref.value in financiamentos
    then Some(FinanciamentoRecord(ref.value, financiamentos[ref.value])) else None
  }

  /** The rows of `clientes` named by `ids`, in that order. */
  function ClienteRecords(clientes: map<Id, Cliente>, ids: seq<Id>): (r: seq<ClienteRecord>)
    requires forall i :: 0 <= i < |ids| ==> ids[i] in clientes
    ensures |r| == |ids|
    ensures forall i :: 0 <= i < |r| ==> r[i].id == ids[i] && r[i].cliente == clientes[ids[i]]
  {
    if ids == [] then []
    else [ClienteRecord(ids[0], clientes[ids[0]])] + ClienteRecords(clientes, ids[1..])
  }

  /** GET /api/clientes: every Cliente once, with its id. */
  function ListClientes(clientes: map<Id, Cliente>, bound: Id): (r: seq<ClienteRecord>)
    requires KeysBelow(clientes, bound)
    ensures |r| == |clientes|
    ensures forall i, j :: 0 <= i < j < |r| ==> r[i].id < r[j].id
    ensures forall i :: 0 <= i < |r| ==> r[i].id in clientes && r[i].cliente == clientes[r[i].id]
    ensures forall k :: k in clientes ==> exists i :: 0 <= i < |r| && r[i].id == k
  {
    var ids := AllIds(clientes, bound);
    var r := ClienteRecords(clientes, ids);
    assert forall k :: k in clientes ==> exists i :: 0 <= i < |r| && r[i].id == k by {
      forall k | k in clientes ensures exists i :: 0 <= i < |r| && r[i].id == k {
        IdsBetweenCovers(clientes, 1, bound, k);
        var i :| 0 <= i < |ids| && ids[i] == k;
        assert r[i].id == k;
      }
    }
    r
  }

  /** `e` lists test drive `e.id` as stored, with its customer joined. */
  predicate TestDriveEntryOk(t: Tables, e: TestDriveEntry) {
    && e.id in t.testDrives && e.testDrive == t.testDrives[e.id]
    && EmbedsCliente(t.clientes, e.testDrive.clienteId, e.cliente)
  }

  /** The test drives named by `ids`, in that order, with their customers. */
  function TestDriveEntries(t: Tables, ids: seq<Id>): (r: seq<TestDriveEntry>)
    requires forall i :: 0 <= i < |ids| ==> ids[i] in t.testDrives
    requires Referential(t)
    ensures |r| == |ids|
    ensures forall i :: 0 <= i < |r| ==> r[i].id == ids[i] && TestDriveEntryOk(t, r[i])
  {
    if ids == [] then []
    else
      var row := t.testDrives[ids[0]];
      [TestDriveEntry(ids[0], row, IncludeCliente(t.clientes, row.clienteId))] + TestDriveEntries(t, ids[1..])
  }

  /** GET /api/testdrives: every TestDrive once, each with the customer it
      references embedded, or null when its clienteId is null. */
  function ListTestDrives(t: Tables, bound: Id): (r: seq<TestDriveEntry>)
    requires KeysBelow(t.testDrives, bound) && Referential(t)
    ensures |r| == |t.testDrives|
    ensures forall i, j :: 0 <= i < j < |r| ==> r[i].id < r[j].id
    ensures forall i :: 0 <= i < |r| ==> TestDriveEntryOk(t, r[i])
    ensures forall k :: k in t.testDrives ==> exists i :: 0 <= i < |r| && r[i].id == k
  {
    var ids := AllIds(t.testDrives, bound);
    var r := TestDriveEntries(t, ids);
    assert forall k :: k in t.testDrives ==> exists i :: 0 <= i < |r| && r[i].id == k by {
      forall k | k in t.testDrives ensures exists i :: 0 <= i < |r| && r[i].id == k {
        IdsBetweenCovers(t.testDrives, 1, bound, k);
        var i :| 0 <= i < |ids| && ids[i] == k;
        assert r[i].id == k;
      }
    }
    r
  }

  /** `e` lists Financiamento `e.id` as stored, with its customer joined. */
  predicate FinanciamentoEntryOk(t: Tables, e: FinanciamentoEntry) {
    && e.id in t.financiamentos && e.financiamento == t.financiamentos[e.id]
    && EmbedsCliente(t.clientes, e.financiamento.clienteId, e.cliente)
  }

  /** The Financiamentos named by `ids`, in that order, with their customers. */
  function FinanciamentoEntries(t: Tables, ids: seq<Id>): (r: seq<FinanciamentoEntry>)
    requires forall i :: 0 <= i < |ids| ==> ids[i] in t.financiamentos
    requires Referential(t)
    ensures |r| == |ids|
    ensures forall i :: 0 <= i < |r| ==> r[i].id == ids[i] && FinanciamentoEntryOk(t, r[i])
  {
    if ids == [] then []
    else
      var row := t.financiamentos[ids[0]];
      [FinanciamentoEntry(ids[0], row, IncludeCliente(t.clientes, row.clienteId))] + FinanciamentoEntries(t, ids[1..])
  }

  /** GET /api/financiamentos: every Financiamento once, with its customer. */
  function ListFinanciamentos(t: Tables, bound: Id): (r: seq<FinanciamentoEntry>)
    requires KeysBelow(t.financiamentos, bound) && Referential(t)
    ensures |r| == |t.financiamentos|
    ensures forall i, j :: 0 <= i < j < |r| ==> r[i].id < r[j].id
    ensures forall i :: 0 <= i < |r| ==> FinanciamentoEntryOk(t, r[i])
    ensures forall k :: k in t.financiamentos ==> exists i :: 0 <= i < |r| && r[i].id == k
  {
    var ids := AllIds(t.financiamentos, bound);
    var r := FinanciamentoEntries(t, ids);
    assert forall k :: k in t.financiamentos ==> exists i :: 0 <= i < |r| && r[i].id == k by {
      forall k | k in t.financiamentos ensures exists i :: 0 <= i < |r| && r[i].id == k {
        IdsBetweenCovers(t.financiamentos, 1, bound, k);
        var i :| 0 <= i < |ids| && ids[i] == k;
        assert r[i].id == k;
      }
    }
    r
  }

  /** `e` lists sale `e.id` as stored, with its customer and its
      Financiamento joined. */
  predicate VendaEntryOk(t: Tables, e: VendaEntry) {
    && e.id in t.vendas && e.venda == t.vendas[e.id]
    && EmbedsCliente(t.clientes, e.venda.clienteId, e.cliente)
    && EmbedsFinanciamento(t.financiamentos, e.venda.financiamentoId, e.financiamento)
  }

  /** The sales named by `ids`, in that order, with their joins. */
  function VendaEntries(t: Tables, ids: seq<Id>): (r: seq<VendaEntry>)
    requires forall i :: 0 <= i < |ids| ==> ids[i] in t.vendas
    requires Referential(t)
    ensures |r| == |ids|
    ensures forall i :: 0 <= i < |r| ==> r[i].id == ids[i] && VendaEntryOk(t, r[i])
  {
    if ids == [] then []
    else
      var v := t.vendas[ids[0]];
      [VendaEntry(ids[0], v, IncludeCliente(t.clientes, v.clienteId),
                  IncludeFinanciamento(t.financiamentos, v.financiamentoId))]
      + VendaEntries(t, ids[1..])
  }

  /** GET /api/vendas: every sale once, with its customer and its
      Financiamento embedded, each null when the reference is null. */
  function ListVendas(t: Tables, bound: Id): (r: seq<VendaEntry>)
    requires KeysBelow(t.vendas, bound) && Referential(t)
    ensures |r| == |t.vendas|
    ensures forall i, j :: 0 <= i < j < |r| ==> r[i].id < r[j].id
    ensures forall i :: 0 <= i < |r| ==> VendaEntryOk(t, r[i])
    ensures forall k :: k in t.vendas ==> exists i :: 0 <= i < |r| && r[i].id == k
  {
    var ids := AllIds(t.vendas, bound);
    var r := VendaEntries(t, ids);
    assert forall k :: k in t.vendas ==> exists i :: 0 <= i < |r| && r[i].id == k by {
      forall k | k in t.vendas ensures exists i :: 0 <= i < |r| && r[i].id == k {
        IdsBetweenCovers(t.vendas, 1, bound, k);
        var i :| 0 <= i < |ids| && ids[i] == k;
        assert r[i].id == k;
      }
    }
    r
  }
}
