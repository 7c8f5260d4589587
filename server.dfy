/**
 * The record store of server.js: the database file with its fail-soft read,
 * its whole-file write and its first-boot initialisation, and the handlers of
 * `/api/leads`, `/api/matriculas` and `/api/contatos`. Each handler loads the
 * whole file into a `Dataset` object, changes that object in place and saves
 * all of it back.
 */
module Server {
  import opened JsValues
  import opened Records

  /**
   * The parsed content of the database file. A collection is `None` when its
   * key is missing from the file.
   */
  datatype Snapshot = Snapshot(leads: Option<seq<Record>>, matriculas: Option<seq<Record>>, contatos: Option<seq<Record>>)
  {
    function Get(c: Collection): Option<seq<Record>> {
      match c
      case Leads => leads
      case Matriculas => matriculas
      case Contatos => contatos
    }

    function Set(c: Collection, v: Option<seq<Record>>): (s: Snapshot)
      ensures s.Get(c) == v
      ensures forall d :: d != c ==> s.Get(d) == Get(d)
    {
      match c
      case Leads => this.(leads := v)
      case Matriculas => this.(matriculas := v)
      case Contatos => this.(contatos := v)
    }

    /** The collection as the handlers see it after `if (!db.x) db.x = []`. */
    function Entries(c: Collection): seq<Record> {
      match Get(c)
      case Some(rs) => rs
      case None => []
    }

    /** All three keys are present. */
    predicate WellFormed() {
      leads.Some? && matriculas.Some? && contatos.Some?
    }
  }

  /** `{ leads: [], matriculas: [], contatos: [] }` */
  const Empty := Snapshot(Some([]), Some([]), Some([]))

  /** What `database.json` holds: nothing, something that cannot be read or parsed, or a dataset. */
  datatype FileState = Absent | Unreadable | Holds(data: Snapshot)

  /** The file operations a request performs, in order. */
  datatype FileOp = Access | Read | Write(ok: bool)

  /** The result of `readDatabase()`: the parsed file, or the empty dataset on any failure. */
  function Loaded(f: FileState): Snapshot {
    match f
    case Holds(s) => s
    case _ => Empty
  }

  /** Every dataset the file can yield has all three keys. */
  predicate FileWellFormed(f: FileState) {
    f.Holds? ==> f.data.WellFormed()
  }

  /** An HTTP response: status code and JSON body. */
  datatype Reply = Reply(status: int, body: Json)

  function MissingFieldsMessage(c: Collection): string {
    match c
    case Leads => "Campos obrigatórios: nome, email, telefone"
    case Matriculas => "Campos obrigatórios: nome, email, telefone, plano"
    case Contatos => "Campos obrigatórios: nome, email, mensagem"
  }

  function SaveFailedMessage(c: Collection): string {
    match c
    case Leads => "Erro ao salvar lead"
    case Matriculas => "Erro ao salvar matrícula"
    case Contatos => "Erro ao salvar contato"
  }

  function NotFoundMessage(c: Collection): string {
    match c
    case Leads => "Lead não encontrado"
    case Matriculas => "Matrícula não encontrada"
    case Contatos => "Contato não encontrado"
  }

  function UpdateFailedMessage(c: Collection): string {
    match c
    case Leads => "Erro ao atualizar lead"
    case Matriculas => "Erro ao atualizar matrícula"
    case Contatos => "Erro ao atualizar contato"
  }

  function RemovedMessage(c: Collection): string {
    match c
    case Leads => "Lead removido com sucesso"
    case Matriculas => "Matrícula removida com sucesso"
    case Contatos => "Contato removido com sucesso"
  }

  function RemoveFailedMessage(c: Collection): string {
    match c
    case Leads => "Erro ao remover lead"
    case Matriculas => "Erro ao remover matrícula"
    case Contatos => "Erro ao remover contato"
  }

  function ListFailedMessage(c: Collection): string {
    match c
    case Leads => "Erro ao buscar leads"
    case Matriculas => "Erro ao buscar matrículas"
    case Contatos => "Erro ao buscar contatos"
  }

  /** The message of the TypeError raised by `db.x.length` when `db.x` is `undefined`. */
  const UndefinedLengthError := "Cannot read properties of undefined (reading 'length')"

  /** The records of a collection as a JSON array. */
  function AsJson(rs: seq<Record>): (a: seq<Json>)
    ensures |a| == |rs|
    ensures forall i :: 0 <= i < |rs| ==> a[i] == JObj(rs[i])
  {
    seq(|rs|, i requires 0 <= i < |rs| => JObj(rs[i]))
  }

  /**
   * The dataset after a create: one record added at the end of collection
   * `c` (an empty one if its key was missing).
   */
  function Appended(s: Snapshot, c: Collection, r: Record): (t: Snapshot)
    ensures t.Get(c).Some?
    ensures |t.Entries(c)| == |s.Entries(c)| + 1
    ensures t.Entries(c)[..|s.Entries(c)|] == s.Entries(c)
    ensures t.Entries(c)[|s.Entries(c)|] == r
    ensures forall d :: d != c ==> t.Get(d) == s.Get(d)
    ensures s.WellFormed() ==> t.WellFormed()
  {
    s.Set(c, Some(s.Entries(c) + [r]))
  }

  /**
   * The dataset after an update: `None` (answered 404) when no record of
   * collection `c` holds the id; otherwise only that collection changes, as
   * `UpdateFirst` says.
   */
  function Updated(s: Snapshot, c: Collection, id: string, body: Fields): (t: Option<Snapshot>)
    ensures t.None? <==> forall j :: 0 <= j < |s.Entries(c)| ==> !HasId(s.Entries(c)[j], id)
    ensures t.Some? ==> t.value.Get(c) == UpdateFirst(s.Entries(c), id, body)
    ensures t.Some? ==> |t.value.Entries(c)| == |s.Entries(c)|
    ensures t.Some? ==> forall d :: d != c ==> t.value.Get(d) == s.Get(d)
    ensures t.Some? && s.WellFormed() ==> t.value.WellFormed()
  {
    match UpdateFirst(s.Entries(c), id, body)
    case None => None
    case Some(rs) => Some(s.Set(c, Some(rs)))
  }

  /**
   * The dataset after a delete: `None` (answered 404) when no record of
   * collection `c` holds the id; otherwise every record holding it is gone
   * from that collection and nothing else changes.
   */
  function Removed(s: Snapshot, c: Collection, id: string): (t: Option<Snapshot>)
    ensures t.None? <==> forall j :: 0 <= j < |s.Entries(c)| ==> !HasId(s.Entries(c)[j], id)
    ensures t.Some? ==> t.value.Get(c) == Some(RemoveAll(s.Entries(c), id))
    ensures t.Some? ==> |t.value.Entries(c)| < |s.Entries(c)|
    ensures t.Some? ==> forall x :: x in t.value.Entries(c) ==> !HasId(x, id)
    ensures t.Some? ==> forall d :: d != c ==> t.value.Get(d) == s.Get(d)
    ensures t.Some? && s.WellFormed() ==> t.value.WellFormed()
  {
    var rs := RemoveAll(s.Entries(c), id);
    if |rs| == |s.Entries(c)| then None else Some(s.Set(c, Some(rs)))
  }

  /**
   * The reply of `GET /api/<c>` as written: line 69 reads `db.x.length`
   * before line 70's `db.x || []` can apply, so a missing key throws and the
   * catch answers 500.
   */
  function ListReply(s: Snapshot, c: Collection): (r: Reply)
    ensures s.Get(c).Some? ==> r == Reply(200, JArr(AsJson(s.Get(c).value)))
    ensures s.Get(c).None? ==> r.status == 500
  {
    match s.Get(c)
    case Some(rs) => Reply(200, JArr(AsJson(rs)))
    case None =>
      Reply(500, JObj(map["error" := JStr(ListFailedMessage(c)), "details" := JStr(UndefinedLengthError)]))
  }

  /** The reply the `|| []` fallback was written for: a missing key lists as empty. */
  function ListReplyIntended(s: Snapshot, c: Collection): (r: Reply)
    ensures r.status == 200
    ensures r.body == JArr(AsJson(s.Entries(c)))
    ensures s.Get(c).Some? ==> r == ListReply(s, c)
  {
    Reply(200, JArr(AsJson(s.Entries(c))))
  }

  /** A file holding `{}` (no collection keys) makes every list request fail. */
  lemma ListMissingKeyFails(c: Collection)
    ensures ListReply(Snapshot(None, None, None), c).status == 500
    ensures ListReplyIntended(Snapshot(None, None, None), c) == Reply(200, JArr([]))
  {
  }

  /** From a file the server itself created and maintained, listing never fails. */
  lemma ListSucceedsOnWellFormedFile(f: FileState, c: Collection)
    requires FileWellFormed(f)
    ensures ListReply(Loaded(f), c) == ListReplyIntended(Loaded(f), c)
  {
  }

  /** The `db` object a handler loaded and now changes in place. */
  class Dataset {
    var leads: Option<seq<Record>>
    var matriculas: Option<seq<Record>>
    var contatos: Option<seq<Record>>

    function Value(): Snapshot
      reads this
    {
      Snapshot(leads, matriculas, contatos)
    }

    constructor (s: Snapshot)
      ensures Value() == s
    {
      leads, matriculas, contatos := s.leads, s.matriculas, s.contatos;
    }

    /** `db.x = v` */
    method Assign(c: Collection, v: Option<seq<Record>>)
      modifies this
      ensures Value() == old(Value()).Set(c, v)
    {
      match c
      case Leads => leads := v;
      case Matriculas => matriculas := v;
      case Contatos => contatos := v;
    }

    /** `if (!db.x) db.x = []` */
    method EnsureCollection(c: Collection)
      modifies this
      ensures Value() == old(Value()).Set(c, Some(old(Value()).Entries(c)))
    {
      if Value().Get(c).None? {
        Assign(c, Some([]));
      } else {
        assert old(Value()).Set(c, Some(old(Value()).Entries(c))) == old(Value());
      }
    }
  }

  /** `database.json` and the operations performed on it so far. */
  class DatabaseFile {
    var state: FileState
    ghost var ops: seq<FileOp>

    constructor (initial: FileState)
      ensures state == initial && ops == []
    {
      state := initial;
      ops := [];
    }

    /**
     * `initDatabase()`: when the file exists it is left alone; only an absent
     * file is created, holding the empty dataset. `writable` says whether the
     * disk accepts the write; when it does not, the error reaches the startup
     * code, which exits.
     */
    method InitDatabase(writable: bool) returns (ok: bool)
      modifies this
      ensures old(state) != Absent ==> ok && state == old(state) && ops == old(ops) + [Access]
      ensures old(state) == Absent ==> ok == writable && ops == old(ops) + [Access, Write(writable)]
      ensures old(state) == Absent ==> state == if writable then Holds(Empty) else Absent
      ensures FileWellFormed(old(state)) ==> FileWellFormed(state)
    {
      ops := ops + [Access];
      if state == Absent {
        ops := ops + [Write(writable)];
        if writable {
          state := Holds(Empty);
        }
        ok := writable;
      } else {
        ok := true;
      }
    }

    /** `readDatabase()`: a fresh object holding the parsed file, or the empty dataset. */
    method ReadDatabase() returns (db: Dataset)
      modifies this
      ensures fresh(db) && db.Value() == Loaded(state)
      ensures state == old(state) && ops == old(ops) + [Read]
    {
      ops := ops + [Read];
      db := new Dataset(Loaded(state));
    }

    /**
     * `writeDatabase(db)`: overwrites the whole file and reports success. A
     * failed write is taken to leave the old content in place.
     */
    method WriteDatabase(db: Dataset, writable: bool) returns (ok: bool)
      modifies this
      ensures ok == writable
      ensures state == if writable then Holds(db.Value()) else old(state)
      ensures ops == old(ops) + [Write(writable)]
    {
      ops := ops + [Write(writable)];
      if writable {
        state := Holds(db.Value());
      }
      ok := writable;
    }
  }

  /** `GET /api/<c>` */
  method List(file: DatabaseFile, c: Collection) returns (reply: Reply)
    modifies file
    ensures reply == ListReply(Loaded(old(file.state)), c)
    ensures file.state == old(file.state) && file.ops == old(file.ops) + [Read]
  {
    var db := file.ReadDatabase();
    reply := ListReply(db.Value(), c);
  }

  /**
   * `POST /api/<c>`: the guard runs before the file is touched; then the new
   * record is appended and the whole dataset saved, and 201 is answered only
   * when the save succeeded.
   */
  method Create(file: DatabaseFile, c: Collection, body: Fields, id: string, now: string, writable: bool)
    returns (reply: Reply)
    modifies file
    ensures !Validate(c, body) ==>
              reply == Reply(400, ErrorBody(MissingFieldsMessage(c))) &&
              file.state == old(file.state) && file.ops == old(file.ops)
    ensures Validate(c, body) ==> file.ops == old(file.ops) + [Read, Write(writable)]
    ensures Validate(c, body) && writable ==>
              reply == Reply(201, JObj(NewRecord(c, body, id, now))) &&
              file.state == Holds(Appended(Loaded(old(file.state)), c, NewRecord(c, body, id, now)))
    ensures Validate(c, body) && !writable ==>
              reply == Reply(500, ErrorBody(SaveFailedMessage(c))) && file.state == old(file.state)
    ensures reply.status == 201 <==> Validate(c, body) && writable
    ensures FileWellFormed(old(file.state)) ==> FileWellFormed(file.state)
  {
    if !Validate(c, body) {
      return Reply(400, ErrorBody(MissingFieldsMessage(c)));
    }
    var db := file.ReadDatabase();
    var rec := NewRecord(c, body, id, now);
    db.EnsureCollection(c);
    db.Assign(c, Some(db.Value().Get(c).value + [rec]));
    var ok := file.WriteDatabase(db, writable);
    if ok {
      reply := Reply(201, JObj(rec));
    } else {
      reply := Reply(500, ErrorBody(SaveFailedMessage(c)));
    }
  }

  /**
   * `PUT /api/<c>/:id`: 404 without a write when no record holds the id;
   * otherwise the first such record becomes its merge with the body, the
   * dataset is saved, and 200 with the merged record is answered only when
   * the save succeeded.
   */
  method Update(file: DatabaseFile, c: Collection, id: string, body: Fields, writable: bool)
    returns (reply: Reply)
    modifies file
    ensures var u := Updated(Loaded(old(file.state)), c, id, body);
      u.None? ==>
        reply == Reply(404, ErrorBody(NotFoundMessage(c))) &&
        file.state == old(file.state) && file.ops == old(file.ops) + [Read]
    ensures var s := Loaded(old(file.state)); var u := Updated(s, c, id, body);
      u.Some? && writable ==>
        file.state == Holds(u.value) && file.ops == old(file.ops) + [Read, Write(true)] &&
        reply == Reply(200, JObj(Merge(s.Entries(c)[FindIndex(s.Entries(c), id)], body)))
    ensures var u := Updated(Loaded(old(file.state)), c, id, body);
      u.Some? && !writable ==>
        reply == Reply(500, ErrorBody(UpdateFailedMessage(c))) &&
        file.state == old(file.state) && file.ops == old(file.ops) + [Read, Write(false)]
    ensures reply.status == 200 ==> writable
    ensures FileWellFormed(old(file.state)) ==> FileWellFormed(file.state)
  {
    var db := file.ReadDatabase();
    db.EnsureCollection(c);
    var rs := db.Value().Get(c).value;
    var index := FindIndex(rs, id);
    if index == -1 {
      return Reply(404, ErrorBody(NotFoundMessage(c)));
    }
    var merged := Merge(rs[index], body);
    db.Assign(c, Some(rs[index := merged]));
    var ok := file.WriteDatabase(db, writable);
    if ok {
      reply := Reply(200, JObj(merged));
    } else {
      reply := Reply(500, ErrorBody(UpdateFailedMessage(c)));
    }
  }

  /**
   * `DELETE /api/<c>/:id`: every record holding the id is filtered out; 404
   * without a write exactly when the length did not change; otherwise the
   * dataset is saved and 200 answered only when the save succeeded.
   */
  method Delete(file: DatabaseFile, c: Collection, id: string, writable: bool) returns (reply: Reply)
    modifies file
    ensures var u := Removed(Loaded(old(file.state)), c, id);
      u.None? ==>
        reply == Reply(404, ErrorBody(NotFoundMessage(c))) &&
        file.state == old(file.state) && file.ops == old(file.ops) + [Read]
    ensures var u := Removed(Loaded(old(file.state)), c, id);
      u.Some? && writable ==>
        file.state == Holds(u.value) && file.ops == old(file.ops) + [Read, Write(true)] &&
        reply == Reply(200, JObj(map["message" := JStr(RemovedMessage(c))]))
    ensures var u := Removed(Loaded(old(file.state)), c, id);
      u.Some? && !writable ==>
        reply == Reply(500, ErrorBody(RemoveFailedMessage(c))) &&
        file.state == old(file.state) && file.ops == old(file.ops) + [Read, Write(false)]
    ensures reply.status == 200 ==> writable
    ensures FileWellFormed(old(file.state)) ==> FileWellFormed(file.state)
  {
    var db := file.ReadDatabase();
    db.EnsureCollection(c);
    var initialLength := |db.Value().Get(c).value|;
    db.Assign(c, Some(RemoveAll(db.Value().Get(c).value, id)));
    if |db.Value().Get(c).value| == initialLength {
      return Reply(404, ErrorBody(NotFoundMessage(c)));
    }
    var ok := file.WriteDatabase(db, writable);
    if ok {
      reply := Reply(200, JObj(map["message" := JStr(RemovedMessage(c))]));
    } else {
      reply := Reply(500, ErrorBody(RemoveFailedMessage(c)));
    }
  }
}
