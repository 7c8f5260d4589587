/**
 * The pure part of the record store in server.js: which fields each create
 * endpoint requires, the record each one builds, the shallow merge of an
 * update, and the lookups by id that the update and delete handlers perform.
 */
module Records {
  import opened JsValues

  /** A stored lead, matricula or contato: a JSON object. */
  type Record = Fields

  /** The three independent collections of the database file. */
  datatype Collection = Leads | Matriculas | Contatos

  /** The fields each create endpoint rejects when falsy, in the order it tests them. */
  function RequiredFields(c: Collection): seq<string> {
    match c
    case Leads => ["nome", "email", "telefone"]
    case Matriculas => ["nome", "email", "telefone", "plano"]
    case Contatos => ["nome", "email", "mensagem"]
  }

  /** The create guard `if (!nome || !email || ...)` lets the body through. */
  predicate Validate(c: Collection, body: Fields) {
    forall f :: f in RequiredFields(c) ==> Truthy(Field(body, f))
  }

  /** Every required field of the collection is truthy in the record. */
  predicate RequiredPresent(c: Collection, r: Record) {
    forall f :: f in RequiredFields(c) ==> Truthy(Field(r, f))
  }

  /** The status a record is created with. */
  function InitialStatus(c: Collection): string {
    match c
    case Leads => "novo"
    case Matriculas => "ativa"
    case Contatos => "Pendente"
  }

  /** The key under which the creation time is stored. */
  function TimestampKey(c: Collection): string {
    match c
    case Leads => "data_cadastro"
    case Matriculas => "data_cadastro"
    case Contatos => "dataContato"
  }

  /** Every key a created record of the collection can have. */
  function SchemaKeys(c: Collection): set<string> {
    match c
    case Leads => {"id", "nome", "email", "telefone", "modalidade", "tipo", "data_cadastro", "status"}
    case Matriculas => {"id", "nome", "email", "telefone", "cpf", "plano", "aceite_termos", "data_cadastro", "status"}
    case Contatos => {"id", "nome", "email", "telefone", "mensagem", "assunto", "dataContato", "status"}
  }

  /** `{ id: <id> }`: the identity a record is looked up by. */
  predicate HasId(r: Record, id: string) {
    Field(r, "id") == Some(JStr(id))
  }

  /**
   * The object literal a create endpoint builds, once its guard has let the
   * body through, from the body, the id (`Date.now().toString()`) and the
   * timestamp (`new Date().toISOString()`).
   */
  function NewRecord(c: Collection, body: Fields, id: string, now: string): (r: Record)
    requires Validate(c, body)
    ensures HasId(r, id)
    ensures Field(r, "status") == Some(JStr(InitialStatus(c)))
    ensures Field(r, TimestampKey(c)) == Some(JStr(now))
    ensures forall f :: f in RequiredFields(c) ==> f in r && r[f] == body[f]
    ensures RequiredPresent(c, r)
    ensures r.Keys == SchemaKeys(c) - (if c == Matriculas && "cpf" !in body then {"cpf"} else {})
  {
    match c
    case Leads => NewLead(body, id, now)
    case Matriculas => NewMatricula(body, id, now)
    case Contatos => NewContato(body, id, now)
  }

  /** A body the guard let through holds every required field. */
  lemma ValidatedFieldsPresent(c: Collection, body: Fields)
    requires Validate(c, body)
    ensures forall f :: f in RequiredFields(c) ==> f in body && Truthy(Some(body[f]))
  {
    forall f | f in RequiredFields(c) ensures f in body && Truthy(Some(body[f])) {
      assert Truthy(Field(body, f));
    }
  }

  /** The lead built by `POST /api/leads`. */
  function NewLead(body: Fields, id: string, now: string): (r: Record)
    requires Validate(Leads, body)
    ensures r.Keys == SchemaKeys(Leads)
    ensures HasId(r, id)
    ensures r["status"] == JStr("novo") && r["tipo"] == JStr("aula_experimental")
    ensures r["data_cadastro"] == JStr(now)
    ensures forall f :: f in RequiredFields(Leads) ==> f in r && r[f] == body[f]
    ensures !Truthy(Field(body, "modalidade")) ==> r["modalidade"] == JStr("Não especificado")
    ensures Truthy(Field(body, "modalidade")) ==> r["modalidade"] == body["modalidade"]
  {
    ValidatedFieldsPresent(Leads, body);
    map[
      "id" := JStr(id),
      "nome" := body["nome"],
      "email" := body["email"],
      "telefone" := body["telefone"],
      "modalidade" := OrElse(Field(body, "modalidade"), JStr("Não especificado")),
      "tipo" := JStr("aula_experimental"),
      "data_cadastro" := JStr(now),
      "status" := JStr("novo")
    ]
  }

  /** The matricula built by `POST /api/matriculas`; an `undefined` cpf is not stored. */
  function NewMatricula(body: Fields, id: string, now: string): (r: Record)
    requires Validate(Matriculas, body)
    ensures r.Keys == SchemaKeys(Matriculas) - (if "cpf" !in body then {"cpf"} else {})
    ensures HasId(r, id)
    ensures r["status"] == JStr("ativa")
    ensures r["data_cadastro"] == JStr(now)
    ensures forall f :: f in RequiredFields(Matriculas) ==> f in r && r[f] == body[f]
    ensures Field(r, "cpf") == Field(body, "cpf")
    ensures r["aceite_termos"] == JBool(Truthy(Field(body, "aceite_termos")))
  {
    ValidatedFieldsPresent(Matriculas, body);
    var r := map[
      "id" := JStr(id),
      "nome" := body["nome"],
      "email" := body["email"],
      "telefone" := body["telefone"],
      "plano" := body["plano"],
      "aceite_termos" := JBool(Truthy(Field(body, "aceite_termos"))),
      "data_cadastro" := JStr(now),
      "status" := JStr("ativa")
    ];
    With(r, "cpf", Field(body, "cpf"))
  }

  /** The contato built by `POST /api/contatos`. */
  function NewContato(body: Fields, id: string, now: string): (r: Record)
    requires Validate(Contatos, body)
    ensures r.Keys == SchemaKeys(Contatos)
    ensures HasId(r, id)
    ensures r["status"] == JStr("Pendente")
    ensures r["dataContato"] == JStr(now)
    ensures forall f :: f in RequiredFields(Contatos) ==> f in r && r[f] == body[f]
    ensures !Truthy(Field(body, "telefone")) ==> r["telefone"] == JStr("Não informado")
    ensures Truthy(Field(body, "telefone")) ==> r["telefone"] == body["telefone"]
    ensures !Truthy(Field(body, "assunto")) ==> r["assunto"] == JStr("Contato geral")
    ensures Truthy(Field(body, "assunto")) ==> r["assunto"] == body["assunto"]
  {
    ValidatedFieldsPresent(Contatos, body);
    map[
      "id" := JStr(id),
      "nome" := body["nome"],
      "email" := body["email"],
      "telefone" := OrElse(Field(body, "telefone"), JStr("Não informado")),
      "mensagem" := body["mensagem"],
      "assunto" := OrElse(Field(body, "assunto"), JStr("Contato geral")),
      "dataContato" := JStr(now),
      "status" := JStr("Pendente")
    ]
  }

  /** The shallow merge `{ ...old, ...body }`: fields of the body win. */
  function Merge(current: Record, body: Fields): (r: Record)
    ensures r.Keys == current.Keys + body.Keys
    ensures forall k :: k in body ==> r[k] == body[k]
    ensures forall k :: k in current && k !in body ==> r[k] == current[k]
  {
    current + body
  }

  /** `rs.findIndex(r => r.id === id)`: the first index holding the id, or -1. */
  function FindIndex(rs: seq<Record>, id: string): (i: int)
    ensures -1 <= i < |rs|
    ensures i == -1 <==> forall j :: 0 <= j < |rs| ==> !HasId(rs[j], id)
    ensures 0 <= i ==> HasId(rs[i], id) && forall j :: 0 <= j < i ==> !HasId(rs[j], id)
  {
    if |rs| == 0 then -1
    else if HasId(rs[0], id) then 0
    else
      var k := FindIndex(rs[1..], id);
      if k == -1 then -1 else k + 1
  }

  /**
   * What the update handler does to a collection: `None` when no record
   * holds the id, otherwise the collection with only the first such record
   * replaced by its merge with the body.
   */
  function UpdateFirst(rs: seq<Record>, id: string, body: Fields): (r: Option<seq<Record>>)
    ensures r.None? <==> forall j :: 0 <= j < |rs| ==> !HasId(rs[j], id)
    ensures r.Some? ==> (|r.value| == |rs| &&
              exists i :: 0 <= i < |rs| && HasId(rs[i], id) &&
                (forall j :: 0 <= j < i ==> !HasId(rs[j], id)) &&
                r.value[i] == Merge(rs[i], body) &&
                (forall j :: 0 <= j < |rs| && j != i ==> r.value[j] == rs[j]))
  {
    var i := FindIndex(rs, id);
    if i == -1 then None else Some(rs[i := Merge(rs[i], body)])
  }

  /** `rs.filter(r => r.id !== id)`: every record holding the id removed, the rest kept in order. */
  function RemoveAll(rs: seq<Record>, id: string): (r: seq<Record>)
    ensures |r| <= |rs|
    ensures forall x :: x in r ==> x in rs && !HasId(x, id)
    ensures forall x :: x in rs && !HasId(x, id) ==> x in r
    ensures |r| == |rs| <==> forall j :: 0 <= j < |rs| ==> !HasId(rs[j], id)
  {
    if |rs| == 0 then []
    else if HasId(rs[0], id) then RemoveAll(rs[1..], id)
    else [rs[0]] + RemoveAll(rs[1..], id)
  }

  /** Filtering works piece by piece, so the surviving records keep their relative order. */
  lemma {:induction false} RemoveAllAppend(a: seq<Record>, b: seq<Record>, id: string)
    ensures RemoveAll(a + b, id) == RemoveAll(a, id) + RemoveAll(b, id)
  {
    if |a| == 0 {
      assert a + b == b;
    } else {
      assert (a + b)[1..] == a[1..] + b;
      RemoveAllAppend(a[1..], b, id);
    }
  }

  /** Deleting an id nobody holds leaves the collection exactly as it was. */
  lemma {:induction false} RemoveAbsentIsIdentity(rs: seq<Record>, id: string)
    requires forall j :: 0 <= j < |rs| ==> !HasId(rs[j], id)
    ensures RemoveAll(rs, id) == rs
  {
    if |rs| > 0 {
      RemoveAbsentIsIdentity(rs[1..], id);
    }
  }

  /**
   * Ids come from the clock, so two records can share one. Then an update
   * changes only the first of them, while a delete removes both.
   */
  lemma SharedIdUpdateAndDelete(a: Record, b: Record, id: string, body: Fields)
    requires HasId(a, id) && HasId(b, id)
    ensures UpdateFirst([a, b], id, body) == Some([Merge(a, body), b])
    ensures RemoveAll([a, b], id) == []
  {
    assert [a, b][1..] == [b];
    assert FindIndex([a, b], id) == 0;
    assert [a, b][0 := Merge(a, body)] == [Merge(a, body), b];
  }

  /** An update whose body is `{ status: s }` changes the status and nothing else. */
  lemma StatusOnlyMerge(r: Record, s: string)
    ensures Merge(r, map["status" := JStr(s)]) == r["status" := JStr(s)]
  {
    var m := Merge(r, map["status" := JStr(s)]);
    assert m.Keys == r["status" := JStr(s)].Keys;
  }

  /**
   * An update body is merged without any check, so it can blank a field the
   * create endpoint required: the required-field rule holds of created
   * records only.
   */
  lemma UpdateMayBreakRequiredFields(c: Collection, r: Record)
    ensures !RequiredPresent(c, Merge(r, map["nome" := JStr("")]))
  {
    assert "nome" in RequiredFields(c);
    assert Field(Merge(r, map["nome" := JStr("")]), "nome") == Some(JStr(""));
  }
}
