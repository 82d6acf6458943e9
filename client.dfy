/** The lazily created remote client: `get_client` and the module-level
    `client` cell filled by `get_or_create_client`. */
module ClientCell {
  import opened Wrappers

  /** The remote model the client connects to. */
  const MODEL_ID: string := "amd/llama4-maverick-17b-128e-mi-amd"

  /** The error `get_client` raises when `TOKEN_HUGGI` is unset or empty. */
  const TOKEN_NOT_FOUND: string :=
    "Токен не найден. Убедитесь, что переменная окружения TOKEN_HUGGI установлена."

  /** A client object. Every construction yields a new object; `serial` is
      the number of constructions made before it, so two handles are the
      same object exactly when they are equal. */
  datatype Handle = Handle(model: string, serial: nat)

  /** `if not haggi_token`: an unset variable and the empty string both fail. */
  predicate TokenPresent(token: Option<string>) {
    token.Some? && token.value != []
  }

  /** `get_client()`. `token` is the value of `TOKEN_HUGGI`; `connectFailure`
      is what the foreign `Client(MODEL_ID)` constructor does when it is
      called: `None` when it returns, `Some(m)` when it raises with message
      `m`; `serial` numbers the object it would create. The constructor is
      only reached when the token is present. */
  function GetClient(token: Option<string>, connectFailure: Option<string>, serial: nat): (r: Result<Handle>)
    ensures r.Ok? <==> TokenPresent(token) && connectFailure.None?
    ensures r.Ok? ==> r.value == Handle(MODEL_ID, serial)
    ensures !TokenPresent(token) ==> r == Err(TOKEN_NOT_FOUND)
    ensures TokenPresent(token) && connectFailure.Some? ==> r == Err(connectFailure.value)
  {
    if !TokenPresent(token) then
      Err(TOKEN_NOT_FOUND)
    else match connectFailure
      case None => Ok(Handle(MODEL_ID, serial))
      case Some(m) => Err(m)
  }

  /** The cell's contents: the cached client, if any, and how many times the
      `Client` constructor has been called. */
  datatype CellState = CellState(client: Option<Handle>, constructions: nat)

  /** The cached client, once there is one, is the object the most recent
      construction made: nothing has been constructed since it was stored. */
  predicate CellValid(s: CellState) {
    s.client.Some? ==> s.constructions >= 1 && s.client.value == Handle(MODEL_ID, s.constructions - 1)
  }

  /** The state a fresh process starts in: `client = None`, nothing built. */
  const Initial: CellState := CellState(None, 0)

  /** One call of `get_or_create_client()`: the new cell and what the call
      returns (or raises). A cached client is returned as it is; otherwise
      the call returns what `get_client` does. Afterwards the cell holds a
      client exactly when the call returned one, and it is that client; the
      constructor has run at most once, and only when the cell was empty and
      the token present. The cell stays valid. */
  function Step(s: CellState, token: Option<string>, connectFailure: Option<string>): (out: (CellState, Result<Handle>))
    ensures CellValid(s) ==> CellValid(out.0)
    ensures s.client.Some? ==> out == (s, Ok(s.client.value))
    ensures s.client.None? ==> out.1 == GetClient(token, connectFailure, s.constructions)
    ensures out.0.client == (if out.1.Ok? then Some(out.1.value) else None)
    ensures out.0.constructions ==
              s.constructions + (if s.client.None? && TokenPresent(token) then 1 else 0)
  {
    if s.client.Some? then
      (s, Ok(s.client.value))
    else
      var r := GetClient(token, connectFailure, s.constructions);
      var built := s.constructions + (if TokenPresent(token) then 1 else 0);
      (CellState(if r.Ok? then Some(r.value) else None, built), r)
  }

  /** A run of calls in sequence, the i-th one meeting `connectFailures[i]`
      if it reaches the constructor: the final cell and every call's result.
      There is one result per call, the cell stays valid, constructions are
      never undone, and after a non-empty run the cell holds exactly the
      client the last call returned, if it returned one. */
  function Run(s: CellState, token: Option<string>, connectFailures: seq<Option<string>>): (out: (CellState, seq<Result<Handle>>))
    ensures |out.1| == |connectFailures|
    ensures CellValid(s) ==> CellValid(out.0)
    ensures out.0.constructions >= s.constructions
    ensures connectFailures == [] ==> out.0 == s
    ensures connectFailures != [] ==>
              var last := out.1[|out.1| - 1];
              out.0.client == (if last.Ok? then Some(last.value) else None)
    decreases |connectFailures|
  {
    if connectFailures == [] then
      (s, [])
    else
      var (s1, r) := Step(s, token, connectFailures[0]);
      var (sN, rs) := Run(s1, token, connectFailures[1..]);
      (sN, [r] + rs)
  }

  /** Once the cell holds a client, every later call returns that same
      client, the cell does not change and nothing more is constructed. */
  lemma {:induction false} CachedClientIsStable(s: CellState, token: Option<string>, connectFailures: seq<Option<string>>)
    requires s.client.Some?
    ensures Run(s, token, connectFailures).0 == s
    ensures forall k :: 0 <= k < |connectFailures| ==> Run(s, token, connectFailures).1[k] == Ok(s.client.value)
    decreases |connectFailures|
  {
    if connectFailures != [] {
      CachedClientIsStable(s, token, connectFailures[1..]);
    }
  }

  /** After the first result that is a client, every later result is the
      very same client. */
  predicate SameAfterFirstClient(rs: seq<Result<Handle>>) {
    forall i, j :: 0 <= i <= j < |rs| && rs[i].Ok? ==> rs[j] == rs[i]
  }

  /** In any run from a valid cell, once a call has returned a client every
      later call returns that same client. */
  lemma {:induction false} SameClientAfterSuccess(s: CellState, token: Option<string>, connectFailures: seq<Option<string>>)
    requires CellValid(s)
    ensures SameAfterFirstClient(Run(s, token, connectFailures).1)
    decreases |connectFailures|
  {
    if connectFailures != [] {
      var (s1, r) := Step(s, token, connectFailures[0]);
      var rs := Run(s, token, connectFailures).1;
      var tail := Run(s1, token, connectFailures[1..]).1;
      assert rs == [r] + tail;
      SameClientAfterSuccess(s1, token, connectFailures[1..]);
      if r.Ok? {
        assert s1.client == Some(r.value);
        CachedClientIsStable(s1, token, connectFailures[1..]);
      }
      forall i, j | 0 <= i <= j < |rs| && rs[i].Ok? ensures rs[j] == rs[i] {
        if i == 0 {
          assert rs[0] == r;
          if j > 0 {
            assert rs[j] == tail[j - 1] == Ok(s1.client.value);
          }
        } else {
          assert rs[i] == tail[i - 1] && rs[j] == tail[j - 1];
          assert 0 <= i - 1 <= j - 1 < |tail| && tail[i - 1].Ok?;
        }
      }
    }
  }

  /** Without a token no call ever reaches the constructor: every call fails
      with the token error and the cell stays empty. */
  lemma {:induction false} NoTokenNoClient(s: CellState, token: Option<string>, connectFailures: seq<Option<string>>)
    requires s.client.None? && !TokenPresent(token)
    ensures Run(s, token, connectFailures).0 == s
    ensures forall k :: 0 <= k < |connectFailures| ==> Run(s, token, connectFailures).1[k] == Err(TOKEN_NOT_FOUND)
    decreases |connectFailures|
  {
    if connectFailures != [] {
      NoTokenNoClient(s, token, connectFailures[1..]);
    }
  }

  /** Starting from an empty cell, the constructor runs once per call up to
      and including the first success, and never again: the number of
      constructions is the number of calls that found the cell empty. */
  lemma {:induction false} ConstructionsCountEmptyCalls(s: CellState, token: Option<string>, connectFailures: seq<Option<string>>)
    requires CellValid(s) && TokenPresent(token)
    ensures var (sN, rs) := Run(s, token, connectFailures);
      sN.constructions == s.constructions + EmptyCalls(s, connectFailures)
    decreases |connectFailures|
  {
    if connectFailures != [] {
      var (s1, r) := Step(s, token, connectFailures[0]);
      ConstructionsCountEmptyCalls(s1, token, connectFailures[1..]);
    }
  }

  /** How many calls of a run with a token find the cell empty: all of them
      up to and including the first one whose constructor returns. */
  function EmptyCalls(s: CellState, connectFailures: seq<Option<string>>): (n: nat)
    ensures n <= |connectFailures|
    ensures s.client.Some? ==> n == 0
  {
    if s.client.Some? then 0
    else FirstSuccess(connectFailures)
  }

  /** The 1-based position of the first `None` in `connectFailures`, or its
      length when every attempt fails. */
  function FirstSuccess(connectFailures: seq<Option<string>>): (n: nat)
    ensures n <= |connectFailures|
    ensures forall k :: 0 <= k < n - 1 ==> connectFailures[k].Some?
    ensures n < |connectFailures| ==> n > 0 && connectFailures[n - 1].None?
  {
    if connectFailures == [] then 0
    else if connectFailures[0].None? then 1
    else 1 + FirstSuccess(connectFailures[1..])
  }

  /** The module-level `client` global together with the environment it
      reads. `constructions` counts the calls of the `Client` constructor. */
  class Cell {
    var client: Option<Handle>
    var constructions: nat
    /** The value of `TOKEN_HUGGI` seen by this process. */
    const token: Option<string>

    function State(): CellState
      reads this
    {
      CellState(client, constructions)
    }

    ghost predicate Valid()
      reads this
    {
      CellValid(State())
    }

    /** `client = None` at import time. */
    constructor (token: Option<string>)
      ensures State() == Initial && this.token == token
      ensures Valid()
    {
      this.token := token;
      client := None;
      constructions := 0;
    }

    /** `get_or_create_client()`: build and store a client if none is
        cached, then return the cached one. An error from `get_client`
        leaves the cell empty. */
    method GetOrCreate(connectFailure: Option<string>) returns (r: Result<Handle>)
      requires Valid()
      modifies this
      ensures Valid()
      ensures (State(), r) == Step(old(State()), token, connectFailure)
    {
      if client.None? {
        var made := GetClient(token, connectFailure, constructions);
        if TokenPresent(token) {
          constructions := constructions + 1;
        }
        if made.Err? {
          return made;
        }
        client := Some(made.value);
      }
      r := Ok(client.value);
    }
  }

  /** The repository's caching test: with a token and a working
      constructor, two calls from a fresh cell return the same client and
      the constructor runs once. */
  lemma CachingExample(token: Option<string>)
    requires TokenPresent(token)
    ensures var (s, rs) := Run(Initial, token, [None, None]);
      rs == [Ok(Handle(MODEL_ID, 0)), Ok(Handle(MODEL_ID, 0))] && s.constructions == 1
  {
  }
}
