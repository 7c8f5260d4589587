/**
 * The `AdminDashboard` class of script2.js: loading the three collections
 * from the API with a bounded retry, the status toggle and the removal
 * actions that write through the API and reload, the statistics shown on the
 * page, and the fallback to an empty dataset.
 *
 * The network is reduced to data: every `fetch` a method would make is an
 * `Attempt` or a `Mutation` it receives, and every pause is a number of
 * milliseconds it reports. The page is reduced to the figures and the alert
 * it ends up showing.
 */
module Admin {
  import opened JsValues
  import opened Records
  import Escape

  // ---------------------------------------------------------------------------
  // One GET attempt

  /**
   * What one `fetch` of a GET endpoint yields: a rejection (network failure,
   * or a body that is not JSON) with its message, or a response with its
   * status, status text and parsed body.
   */
  datatype Attempt =
    | Rejected(message: string)
    | Answered(status: nat, statusText: string, body: Json)

  /** The result of one attempt inside the `try` of `fetchData`. */
  datatype Outcome = Ok(value: Json) | Err(error: string)

  /** The TypeError message of reading a property of `null`. */
  function NullPropertyMessage(property: string): string {
    "Cannot read properties of null (reading '" + property + "')"
  }

  /** `response.ok` */
  predicate IsOk(status: nat) {
    200 <= status <= 299
  }

  /**
   * An attempt fails when it is rejected, when the status is not 2xx, and
   * when the body is `null` (the log line reads `data.length`).
   */
  function AttemptOutcome(a: Attempt): (o: Outcome)
    ensures o.Ok? <==> a.Answered? && IsOk(a.status) && a.body != JNull
    ensures o.Ok? ==> o.value == a.body
    ensures a.Rejected? ==> o == Err(a.message)
  {
    match a
    case Rejected(m) => Err(m)
    case Answered(status, text, body) =>
      if !IsOk(status) then Err("HTTP " + NatToString(status) + ": " + text)
      else if body == JNull then Err(NullPropertyMessage("length"))
      else Ok(body)
  }

  /** Does attempt `a` end the retry loop with data? */
  predicate Succeeds(a: Attempt) {
    AttemptOutcome(a).Ok?
  }

  // ---------------------------------------------------------------------------
  // fetchData: the retry loop

  /** The default `retries = 3`. */
  const DefaultRetries := 3

  /** The result of `fetchData`: the value it returns, or the error it throws. */
  datatype FetchResult = Returned(data: Option<Json>) | Thrown(message: string)

  /** The index of the first successful attempt among the first `n`, or -1. */
  function FirstSuccess(attempts: seq<Attempt>, n: nat): (k: int)
    requires n <= |attempts|
    ensures -1 <= k < n
    ensures k == -1 <==> forall j :: 0 <= j < n ==> !Succeeds(attempts[j])
    ensures 0 <= k ==> Succeeds(attempts[k]) && forall j :: 0 <= j < k ==> !Succeeds(attempts[j])
  {
    if n == 0 then -1
    else
      var k := FirstSuccess(attempts, n - 1);
      if k >= 0 then k
      else if Succeeds(attempts[n - 1]) then n - 1
      else -1
  }

  /** The error `fetchData` throws once every attempt has failed. */
  function FailureMessage(endpoint: string, retries: nat, last: string): string {
    "Falha ao carregar " + endpoint + " após " + NatToString(retries) + " tentativas: " + last
  }

  /**
   * What `fetchData(endpoint, retries)` settles to, given the attempts the
   * network would answer: the body of the first successful attempt; or, when
   * all `retries` attempts fail, an error naming the endpoint, the count and
   * the last failure; or `undefined` when it may not try at all.
   */
  function FetchOutcome(endpoint: string, retries: int, attempts: seq<Attempt>): (r: FetchResult)
    requires retries <= |attempts|
    ensures r == Returned(None) <==> retries <= 0
    ensures r.Returned? && r.data.Some? ==>
      exists k :: 0 <= k < retries && AttemptOutcome(attempts[k]) == Ok(r.data.value) &&
        forall j :: 0 <= j < k ==> !Succeeds(attempts[j])
    ensures r.Thrown? <==> retries > 0 && forall j :: 0 <= j < retries ==> !Succeeds(attempts[j])
    ensures r.Thrown? ==> r.message == FailureMessage(endpoint, retries, AttemptOutcome(attempts[retries - 1]).error)
  {
    if retries <= 0 then Returned(None)
    else
      var k := FirstSuccess(attempts, retries);
      if k >= 0 then Returned(Some(AttemptOutcome(attempts[k]).value))
      else Thrown(FailureMessage(endpoint, retries, AttemptOutcome(attempts[retries - 1]).error))
  }

  /** How many requests `fetchData` sends: up to and including the first success, at most `retries`. */
  function AttemptsMade(retries: int, attempts: seq<Attempt>): (n: nat)
    requires retries <= |attempts|
    ensures retries <= 0 ==> n == 0
    ensures retries > 0 ==> 1 <= n <= retries
    ensures 0 < n < retries ==> Succeeds(attempts[n - 1])
    ensures forall j :: 0 <= j < n - 1 ==> !Succeeds(attempts[j])
  {
    if retries <= 0 then 0
    else
      var k := FirstSuccess(attempts, retries);
      if k >= 0 then k + 1 else retries
  }

  /** The pauses before attempts 2 .. n + 1: `1000 * (i + 1)` ms after failed attempt `i`. */
  function Backoff(n: nat): seq<nat> {
    seq(n, i => 1000 * (i + 1))
  }

  /**
   * `fetchData(endpoint, retries)`: tries attempt after attempt, returns the
   * data of the first one that succeeds, pauses after every failure except
   * the last, and throws after the last. `made` is the number of requests
   * sent and `waits` the pauses taken, in order.
   */
  method FetchData(endpoint: string, retries: int, attempts: seq<Attempt>)
    returns (result: FetchResult, made: nat, waits: seq<nat>)
    requires retries <= |attempts|
    ensures result == FetchOutcome(endpoint, retries, attempts)
    ensures made == AttemptsMade(retries, attempts)
    ensures waits == Backoff(if made == 0 then 0 else made - 1)
  {
    made := 0;
    waits := [];
    var i := 0;
    while i < retries
      invariant 0 <= i <= |attempts|
      invariant retries > 0 ==> i < retries
      invariant retries <= 0 ==> i == 0
      invariant FirstSuccess(attempts, i) == -1
      invariant made == i && waits == Backoff(i)
    {
      var outcome := AttemptOutcome(attempts[i]);
      made := made + 1;
      if outcome.Ok? {
        assert FirstSuccess(attempts, retries) == i;
        result := Returned(Some(outcome.value));
        return;
      }
      if i == retries - 1 {
        assert FirstSuccess(attempts, retries) == -1;
        result := Thrown(FailureMessage(endpoint, retries, outcome.error));
        return;
      }
      waits := waits + [1000 * (i + 1)];
      i := i + 1;
    }
    result := Returned(None);
  }

  /** The sum of a sequence of pauses. */
  function Total(waits: seq<nat>): nat {
    if |waits| == 0 then 0 else Total(waits[..|waits| - 1]) + waits[|waits| - 1]
  }

  /** The pauses grow linearly, so `n` of them add up to 500·n·(n+1) ms. */
  lemma {:induction false} BackoffTotal(n: nat)
    ensures Total(Backoff(n)) == 500 * n * (n + 1)
  {
    if n > 0 {
      assert Backoff(n)[..n - 1] == Backoff(n - 1);
      BackoffTotal(n - 1);
    }
  }

  /**
   * Three failed attempts with the default count: the error is thrown after
   * three requests and pauses of 1000 and 2000 ms, 3000 ms in all.
   */
  lemma ThreeFailures(endpoint: string, attempts: seq<Attempt>)
    requires |attempts| >= DefaultRetries
    requires forall j :: 0 <= j < DefaultRetries ==> !Succeeds(attempts[j])
    ensures FetchOutcome(endpoint, DefaultRetries, attempts).Thrown?
    ensures AttemptsMade(DefaultRetries, attempts) == 3
    ensures Backoff(AttemptsMade(DefaultRetries, attempts) - 1) == [1000, 2000]
    ensures Total(Backoff(AttemptsMade(DefaultRetries, attempts) - 1)) == 3000
  {
    BackoffTotal(2);
  }

  /** With the default count `fetchData` never settles to `undefined`. */
  lemma DefaultFetchReturnsOrThrows(endpoint: string, attempts: seq<Attempt>)
    requires |attempts| >= DefaultRetries
    ensures FetchOutcome(endpoint, DefaultRetries, attempts).Returned? ==>
      FetchOutcome(endpoint, DefaultRetries, attempts).data.Some?
  {
  }

  // ---------------------------------------------------------------------------
  // PUT and DELETE

  /**
   * What `putData` or `deleteData` yields: a rejection (network failure, or a
   * body that is not JSON) with its message, or a response with its status
   * and parsed body.
   */
  datatype Mutation = MRejected(message: string) | MAnswered(status: nat, body: Json)

  /**
   * The error a mutation throws, or `None` when it succeeds. A failed
   * response throws `error.error || 'HTTP ' + status` read from its body; a
   * `null` body makes that read itself throw.
   */
  function MutationError(m: Mutation): (e: Option<string>)
    ensures e.None? <==> m.MAnswered? && IsOk(m.status)
    ensures m.MRejected? ==> e == Some(m.message)
  {
    match m
    case MRejected(msg) => Some(msg)
    case MAnswered(status, body) =>
      if IsOk(status) then None
      else if body == JNull then Some(NullPropertyMessage("error"))
      else
        var error := if body.JObj? then Field(body.fields, "error") else None;
        if Truthy(error) then Some(Escape.JsString(error))
        else Some("HTTP " + NatToString(status))
  }

  /** A failed server reply `{ error: msg }` surfaces on the page as `msg` itself. */
  lemma ServerErrorSurfaces(status: nat, msg: string)
    requires !IsOk(status) && msg != ""
    ensures MutationError(MAnswered(status, ErrorBody(msg))) == Some(msg)
  {
    assert Field(map["error" := JStr(msg)], "error") == Some(JStr(msg));
  }

  /** A failed reply without an `error` field surfaces as the bare status. */
  lemma BareStatusSurfaces(status: nat)
    requires !IsOk(status)
    ensures MutationError(MAnswered(status, JObj(map[]))) == Some("HTTP " + NatToString(status))
  {
  }

  // ---------------------------------------------------------------------------
  // The status toggle

  /** The `type` argument naming a collection in API paths and `onclick` handlers. */
  function CollectionName(c: Collection): string {
    match c
    case Leads => "leads"
    case Matriculas => "matriculas"
    case Contatos => "contatos"
  }

  /** `/api/<type>` */
  function Endpoint(c: Collection): string {
    "/api/" + CollectionName(c)
  }

  /** The status a toggle sets from a record's first status, per collection. */
  function ToggledStatus(c: Collection): string {
    match c
    case Leads => "ativo"
    case Matriculas => "inativa"
    case Contatos => "Respondido"
  }

  /**
   * The `switch` of `toggleStatus`: the first status of the collection's pair
   * becomes the second, anything else becomes the first. An unknown type
   * leaves `newStatus` undefined.
   */
  function NewStatus(typ: string, current: string): (s: Option<string>)
    ensures s.None? <==> typ !in {"leads", "matriculas", "contatos"}
    ensures forall c :: typ == CollectionName(c) ==>
      s == Some(if current == InitialStatus(c) then ToggledStatus(c) else InitialStatus(c))
  {
    match typ
    case "leads" => Some(if current == "novo" then "ativo" else "novo")
    case "matriculas" => Some(if current == "ativa" then "inativa" else "ativa")
    case "contatos" => Some(if current == "Pendente" then "Respondido" else "Pendente")
    case _ => None
  }

  /** Toggling twice from either status of the pair gives it back. */
  lemma NewStatusInvolution(c: Collection, current: string)
    requires current == InitialStatus(c) || current == ToggledStatus(c)
    ensures NewStatus(CollectionName(c), NewStatus(CollectionName(c), current).value) == Some(current)
  {
  }

  /** Any other status is normalised to the first of the pair. */
  lemma NewStatusNormalises(c: Collection, current: string)
    requires current != InitialStatus(c) && current != ToggledStatus(c)
    ensures NewStatus(CollectionName(c), current) == Some(InitialStatus(c))
  {
  }

  /** `{ status: newStatus }` once serialised: `{}` when the type was unknown. */
  function StatusBody(typ: string, current: string): Fields {
    match NewStatus(typ, current)
    case Some(s) => map["status" := JStr(s)]
    case None => map[]
  }

  /**
   * The server merges the toggle's body into the stored record: a record
   * fresh from its create endpoint becomes toggled, and toggling it again
   * restores its first status, every other field untouched.
   */
  lemma ToggleRoundTripOnStoredRecord(c: Collection, r: Record)
    requires Field(r, "status") == Some(JStr(InitialStatus(c)))
    ensures var once := Merge(r, StatusBody(CollectionName(c), InitialStatus(c)));
      once == r["status" := JStr(ToggledStatus(c))] &&
      Merge(once, StatusBody(CollectionName(c), ToggledStatus(c))) == r
  {
    var once := Merge(r, StatusBody(CollectionName(c), InitialStatus(c)));
    StatusOnlyMerge(r, ToggledStatus(c));
    StatusOnlyMerge(once, InitialStatus(c));
    assert once["status" := JStr(InitialStatus(c))] == r;
  }

  // ---------------------------------------------------------------------------
  // Statistics

  /** `m.status === 'ativa'` for an element that is not `null`. */
  predicate IsActive(m: Json) {
    m.JObj? && Field(m.fields, "status") == Some(JStr("ativa"))
  }

  /**
   * `matriculas.filter(m => m.status === 'ativa').length`; reading `status`
   * of a `null` element throws, which is `None`.
   */
  function ActiveCount(ms: seq<Json>): (n: Option<nat>)
    ensures n.None? <==> JNull in ms
    ensures n.Some? ==> n.value <= |ms|
    ensures n.Some? ==> (n.value == |ms| <==> forall m :: m in ms ==> IsActive(m))
    ensures n.Some? ==> (n.value == 0 <==> forall m :: m in ms ==> !IsActive(m))
  {
    if |ms| == 0 then Some(0)
    else if ms[0] == JNull then None
    else
      match ActiveCount(ms[1..])
      case None => None
      case Some(k) => Some(k + (if IsActive(ms[0]) then 1 else 0))
  }

  /** Counting works piece by piece. */
  lemma {:induction false} ActiveCountAppend(a: seq<Json>, b: seq<Json>)
    requires JNull !in a && JNull !in b
    ensures ActiveCount(a + b).Some?
    ensures ActiveCount(a + b).value == ActiveCount(a).value + ActiveCount(b).value
    decreases |a|
  {
    if |a| == 0 {
      assert a + b == b;
    } else {
      assert (a + b)[1..] == a[1..] + b;
      assert (a + b)[0] == a[0] && a[0] in a;
      assert JNull !in a[1..] by {
        assert forall x :: x in a[1..] ==> x in a;
      }
      ActiveCountAppend(a[1..], b);
    }
  }

  /** Deactivating one active matricula lowers the count by exactly one. */
  lemma DeactivationLowersCount(ms: seq<Json>, i: nat)
    requires JNull !in ms && i < |ms| && IsActive(ms[i])
    ensures ActiveCount(ms[i := JObj(ms[i].fields["status" := JStr("inativa")])]).value ==
      ActiveCount(ms).value - 1
  {
    var m' := JObj(ms[i].fields["status" := JStr("inativa")]);
    var ms' := ms[i := m'];
    assert ms == ms[..i] + [ms[i]] + ms[i + 1..];
    assert ms' == ms[..i] + [m'] + ms[i + 1..];
    assert JNull !in ms[..i] && JNull !in ms[i + 1..] by {
      assert forall x :: x in ms[..i] ==> x in ms;
      assert forall x :: x in ms[i + 1..] ==> x in ms;
    }
    ActiveCountAppend(ms[..i] + [ms[i]], ms[i + 1..]);
    ActiveCountAppend(ms[..i], [ms[i]]);
    ActiveCountAppend(ms[..i] + [m'], ms[i + 1..]);
    ActiveCountAppend(ms[..i], [m']);
    assert ActiveCount([m']) == Some(0) by {
      assert [m'][1..] == [];
    }
    assert ActiveCount([ms[i]]) == Some(1) by {
      assert [ms[i]][1..] == [];
    }
  }

  /** The figures on the page: active matriculas, leads and contatos. */
  datatype Stats = Stats(activeMatriculas: nat, leads: nat, contatos: nat)

  /** The alert last shown; a new alert removes the one before it. */
  datatype Alert = SuccessAlert(message: string) | ErrorAlert(message: string)

  /** The requests the dashboard sends that change or reread the server's data. */
  datatype Request = PutRequest(path: string, body: Fields) | DeleteRequest(path: string) | Reload

  /** The collection as stored after `Array.isArray(x) ? x : []`. */
  function ArrayOr(r: FetchResult): seq<Json> {
    if r.Returned? && r.data.Some? && r.data.value.JArr? then r.data.value.items else []
  }

  /** What `fetchData(endpoint)` settles to for a collection, with the default count. */
  function Fetched(c: Collection, attempts: seq<Attempt>): FetchResult
    requires |attempts| >= DefaultRetries
  {
    FetchOutcome(Endpoint(c), DefaultRetries, attempts)
  }

  /**
   * The error `Promise.all` rejects with when one of the three loads throws.
   * Which one surfaces first depends on timing; this takes them in list order.
   */
  function LoadError(la: seq<Attempt>, ma: seq<Attempt>, ca: seq<Attempt>): (e: Option<string>)
    requires |la| >= DefaultRetries && |ma| >= DefaultRetries && |ca| >= DefaultRetries
    ensures e.None? <==> !Fetched(Leads, la).Thrown? && !Fetched(Matriculas, ma).Thrown? && !Fetched(Contatos, ca).Thrown?
    ensures e.Some? ==> exists c :: Fetched(c, [la, ma, ca][CollectionIndex(c)]) == Thrown(e.value)
  {
    if Fetched(Leads, la).Thrown? then
      assert Fetched(Leads, [la, ma, ca][CollectionIndex(Leads)]) == Fetched(Leads, la);
      Some(Fetched(Leads, la).message)
    else if Fetched(Matriculas, ma).Thrown? then
      assert Fetched(Matriculas, [la, ma, ca][CollectionIndex(Matriculas)]) == Fetched(Matriculas, ma);
      Some(Fetched(Matriculas, ma).message)
    else if Fetched(Contatos, ca).Thrown? then
      assert Fetched(Contatos, [la, ma, ca][CollectionIndex(Contatos)]) == Fetched(Contatos, ca);
      Some(Fetched(Contatos, ca).message)
    else None
  }

  /** The position of a collection in `[leads, matriculas, contatos]`. */
  function CollectionIndex(c: Collection): nat {
    match c
    case Leads => 0
    case Matriculas => 1
    case Contatos => 2
  }

  const StatsErrorMessage := "Erro ao atualizar estatísticas"
  const StatusUpdatedMessage := "Status atualizado com sucesso!"
  const StatusErrorPrefix := "Erro ao atualizar status: "
  const ItemRemovedMessage := "Item removido com sucesso!"
  const RemoveErrorPrefix := "Erro ao remover item: "
  const InitErrorPrefix := "Erro ao carregar dados do sistema: "

  /** `/api/<type>/<id>` */
  function ItemPath(typ: string, id: string): string {
    "/api/" + typ + "/" + id
  }

  /** `new AdminDashboard()` and the state its methods change. */
  class AdminDashboard {
    var leads: seq<Json>
    var matriculas: seq<Json>
    var contatos: seq<Json>
    var isLoading: bool
    var stats: Option<Stats>
    var alert: Option<Alert>
    ghost var requests: seq<Request>

    /** The data before the asynchronous `init` has run: three empty collections. */
    constructor ()
      ensures leads == [] && matriculas == [] && contatos == []
      ensures !isLoading && stats.None? && alert.None? && requests == []
    {
      leads, matriculas, contatos := [], [], [];
      isLoading := false;
      stats := None;
      alert := None;
      requests := [];
    }

    /**
     * `loadDataFromAPI()`: fetches the three collections and, when none of
     * the fetches throws, stores each one that is an array (anything else as
     * an empty collection). The loading flag is cleared however it ends.
     */
    method LoadDataFromApi(la: seq<Attempt>, ma: seq<Attempt>, ca: seq<Attempt>) returns (error: Option<string>)
      requires |la| >= DefaultRetries && |ma| >= DefaultRetries && |ca| >= DefaultRetries
      modifies this
      ensures error == LoadError(la, ma, ca)
      ensures !isLoading
      ensures error.Some? ==> leads == old(leads) && matriculas == old(matriculas) && contatos == old(contatos)
      ensures error.None? ==>
        leads == ArrayOr(Fetched(Leads, la)) && matriculas == ArrayOr(Fetched(Matriculas, ma)) &&
        contatos == ArrayOr(Fetched(Contatos, ca))
      ensures stats == old(stats) && alert == old(alert) && requests == old(requests) + [Reload]
    {
      isLoading := true;
      requests := requests + [Reload];
      var l, _, _ := FetchData(Endpoint(Leads), DefaultRetries, la);
      var m, _, _ := FetchData(Endpoint(Matriculas), DefaultRetries, ma);
      var c, _, _ := FetchData(Endpoint(Contatos), DefaultRetries, ca);
      if l.Thrown? {
        error := Some(l.message);
      } else if m.Thrown? {
        error := Some(m.message);
      } else if c.Thrown? {
        error := Some(c.message);
      } else {
        error := None;
        leads := ArrayOr(l);
        matriculas := ArrayOr(m);
        contatos := ArrayOr(c);
      }
      isLoading := false;
    }

    /**
     * `updateDashboard()`: shows the three figures, or the statistics error
     * when counting the active matriculas throws. Revenue and the tables are
     * not modelled.
     */
    method UpdateDashboard()
      modifies this
      ensures ActiveCount(matriculas).Some? ==>
        stats == Some(Stats(ActiveCount(matriculas).value, |leads|, |contatos|)) && alert == old(alert)
      ensures ActiveCount(matriculas).None? ==>
        stats == old(stats) && alert == Some(ErrorAlert(StatsErrorMessage))
      ensures leads == old(leads) && matriculas == old(matriculas) && contatos == old(contatos)
      ensures isLoading == old(isLoading) && requests == old(requests)
    {
      var active := ActiveCount(matriculas);
      if active.None? {
        alert := Some(ErrorAlert(StatsErrorMessage));
        return;
      }
      stats := Some(Stats(active.value, |leads|, |contatos|));
    }

    /** `showOfflineData()`: empties the three collections and redraws. */
    method ShowOfflineData()
      modifies this
      ensures leads == [] && matriculas == [] && contatos == []
      ensures stats == Some(Stats(0, 0, 0))
      ensures alert == old(alert) && isLoading == old(isLoading) && requests == old(requests)
    {
      leads, matriculas, contatos := [], [], [];
      UpdateDashboard();
    }

    /**
     * `toggleStatus(type, id, currentStatus)`: sends the new status, and only
     * when that succeeds reloads and redraws. The alert reports the outcome.
     */
    method ToggleStatus(typ: string, id: string, currentStatus: string, put: Mutation,
                        la: seq<Attempt>, ma: seq<Attempt>, ca: seq<Attempt>)
      requires |la| >= DefaultRetries && |ma| >= DefaultRetries && |ca| >= DefaultRetries
      modifies this
      ensures MutationError(put).Some? ==>
        requests == old(requests) + [PutRequest(ItemPath(typ, id), StatusBody(typ, currentStatus))] &&
        leads == old(leads) && matriculas == old(matriculas) && contatos == old(contatos) &&
        stats == old(stats) && isLoading == old(isLoading) &&
        alert == Some(ErrorAlert(StatusErrorPrefix + MutationError(put).value))
      ensures MutationError(put).None? ==>
        requests == old(requests) + [PutRequest(ItemPath(typ, id), StatusBody(typ, currentStatus)), Reload] &&
        !isLoading
      ensures MutationError(put).None? && LoadError(la, ma, ca).Some? ==>
        leads == old(leads) && matriculas == old(matriculas) && contatos == old(contatos) &&
        stats == old(stats) && alert == Some(ErrorAlert(StatusErrorPrefix + LoadError(la, ma, ca).value))
      ensures MutationError(put).None? && LoadError(la, ma, ca).None? ==>
        leads == ArrayOr(Fetched(Leads, la)) && matriculas == ArrayOr(Fetched(Matriculas, ma)) &&
        contatos == ArrayOr(Fetched(Contatos, ca)) &&
        alert == Some(SuccessAlert(StatusUpdatedMessage)) &&
        (ActiveCount(matriculas).Some? ==> stats == Some(Stats(ActiveCount(matriculas).value, |leads|, |contatos|))) &&
        (ActiveCount(matriculas).None? ==> stats == old(stats))
    {
      var body := StatusBody(typ, currentStatus);
      requests := requests + [PutRequest(ItemPath(typ, id), body)];
      var e := MutationError(put);
      if e.Some? {
        alert := Some(ErrorAlert(StatusErrorPrefix + e.value));
        return;
      }
      var le := LoadDataFromApi(la, ma, ca);
      if le.Some? {
        alert := Some(ErrorAlert(StatusErrorPrefix + le.value));
        return;
      }
      UpdateDashboard();
      alert := Some(SuccessAlert(StatusUpdatedMessage));
    }

    /**
     * `removeItem(type, id)`: nothing happens unless the user confirms; then
     * the delete is sent, and only when it succeeds the data is reloaded and
     * redrawn. The alert reports the outcome.
     */
    method RemoveItem(typ: string, id: string, confirmed: bool, del: Mutation,
                      la: seq<Attempt>, ma: seq<Attempt>, ca: seq<Attempt>)
      requires |la| >= DefaultRetries && |ma| >= DefaultRetries && |ca| >= DefaultRetries
      modifies this
      ensures !confirmed ==>
        requests == old(requests) && alert == old(alert) && stats == old(stats) && isLoading == old(isLoading) &&
        leads == old(leads) && matriculas == old(matriculas) && contatos == old(contatos)
      ensures confirmed && MutationError(del).Some? ==>
        requests == old(requests) + [DeleteRequest(ItemPath(typ, id))] &&
        leads == old(leads) && matriculas == old(matriculas) && contatos == old(contatos) &&
        stats == old(stats) && isLoading == old(isLoading) &&
        alert == Some(ErrorAlert(RemoveErrorPrefix + MutationError(del).value))
      ensures confirmed && MutationError(del).None? ==>
        requests == old(requests) + [DeleteRequest(ItemPath(typ, id)), Reload] && !isLoading
      ensures confirmed && MutationError(del).None? && LoadError(la, ma, ca).Some? ==>
        leads == old(leads) && matriculas == old(matriculas) && contatos == old(contatos) &&
        stats == old(stats) && alert == Some(ErrorAlert(RemoveErrorPrefix + LoadError(la, ma, ca).value))
      ensures confirmed && MutationError(del).None? && LoadError(la, ma, ca).None? ==>
        leads == ArrayOr(Fetched(Leads, la)) && matriculas == ArrayOr(Fetched(Matriculas, ma)) &&
        contatos == ArrayOr(Fetched(Contatos, ca)) &&
        alert == Some(SuccessAlert(ItemRemovedMessage)) &&
        (ActiveCount(matriculas).Some? ==> stats == Some(Stats(ActiveCount(matriculas).value, |leads|, |contatos|))) &&
        (ActiveCount(matriculas).None? ==> stats == old(stats))
    {
      if !confirmed {
        return;
      }
      requests := requests + [DeleteRequest(ItemPath(typ, id))];
      var e := MutationError(del);
      if e.Some? {
        alert := Some(ErrorAlert(RemoveErrorPrefix + e.value));
        return;
      }
      var le := LoadDataFromApi(la, ma, ca);
      if le.Some? {
        alert := Some(ErrorAlert(RemoveErrorPrefix + le.value));
        return;
      }
      UpdateDashboard();
      alert := Some(SuccessAlert(ItemRemovedMessage));
    }

    /**
     * `init()`: checks the API with `GET /api/test`, then loads and draws.
     * When the check or the load fails the error is shown and the page falls
     * back to empty data.
     */
    method Init(test: Attempt, la: seq<Attempt>, ma: seq<Attempt>, ca: seq<Attempt>)
      requires |la| >= DefaultRetries && |ma| >= DefaultRetries && |ca| >= DefaultRetries
      modifies this
      ensures !Succeeds(test) ==>
        leads == [] && matriculas == [] && contatos == [] && stats == Some(Stats(0, 0, 0)) &&
        alert == Some(ErrorAlert(InitErrorPrefix + UnreachableServerMessage)) &&
        requests == old(requests) && isLoading == old(isLoading)
      ensures Succeeds(test) ==> requests == old(requests) + [Reload] && !isLoading
      ensures Succeeds(test) && LoadError(la, ma, ca).Some? ==>
        leads == [] && matriculas == [] && contatos == [] && stats == Some(Stats(0, 0, 0)) &&
        alert == Some(ErrorAlert(InitErrorPrefix + LoadError(la, ma, ca).value))
      ensures Succeeds(test) && LoadError(la, ma, ca).None? ==>
        leads == ArrayOr(Fetched(Leads, la)) && matriculas == ArrayOr(Fetched(Matriculas, ma)) &&
        contatos == ArrayOr(Fetched(Contatos, ca)) &&
        (ActiveCount(matriculas).Some? ==>
          stats == Some(Stats(ActiveCount(matriculas).value, |leads|, |contatos|)) && alert == old(alert)) &&
        (ActiveCount(matriculas).None? ==>
          stats == old(stats) && alert == Some(ErrorAlert(StatsErrorMessage)))
    {
      if !Succeeds(test) {
        alert := Some(ErrorAlert(InitErrorPrefix + UnreachableServerMessage));
        ShowOfflineData();
        return;
      }
      var le := LoadDataFromApi(la, ma, ca);
      if le.Some? {
        alert := Some(ErrorAlert(InitErrorPrefix + le.value));
        ShowOfflineData();
        return;
      }
      UpdateDashboard();
    }
  }

  /** The error `testAPI` throws whenever `GET /api/test` fails in any way. */
  const UnreachableServerMessage := "Servidor não está respondendo. Verifique se o servidor está rodando."
}
