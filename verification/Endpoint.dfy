/** The endpoint's token map: sessions are created by concurrent requests, each in three steps. */
module Endpoints {
  import opened Bytes
  import opened Messages
  import opened Subscriptions

  // ---------- token text ----------

  function HexDigit(n: nat): char
    requires n < 16
  {
    if n < 10 then '0' + n as char else 'a' + (n - 10) as char
  }

  /** Two hexadecimal digits per byte, with a dash where 12, 10, 8 and 6 of the 16 bytes remain. */
  function TokenText(id: seq<byte>): string {
    if id == [] then ""
    else
      (if |id| == 12 || |id| == 10 || |id| == 8 || |id| == 6 then "-" else "")
      + [HexDigit(id[0] as nat / 16), HexDigit(id[0] as nat % 16)]
      + TokenText(id[1..])
  }

  lemma HexByteInjective(a: byte, b: byte)
    requires HexDigit(a as nat / 16) == HexDigit(b as nat / 16) && HexDigit(a as nat % 16) == HexDigit(b as nat % 16)
    ensures a == b
  {
    assert a as nat == 16 * (a as nat / 16) + a as nat % 16;
    assert b as nat == 16 * (b as nat / 16) + b as nat % 16;
  }

  /** How many characters a token's text has after its first k bytes, dashes included. */
  function Width(k: nat): nat {
    2 * k + (if k > 4 then 1 else 0) + (if k > 6 then 1 else 0) + (if k > 8 then 1 else 0) + (if k > 10 then 1 else 0)
  }

  lemma {:induction false} TokenTail(id: seq<byte>, k: nat)
    requires |id| == 16 && k <= 16
    ensures |TokenText(id)| == 36 && Width(k) <= 36
    ensures TokenText(id)[Width(k)..] == TokenText(id[k..])
    decreases k
  {
    if k == 0 {
      assert id[0..] == id;
      TokenSize(id);
    } else {
      TokenTail(id, k - 1);
      var tail := id[k - 1..];
      assert tail[1..] == id[k..];
      var text := TokenText(tail);
      var step := Width(k) - Width(k - 1);
      assert text[step..] == TokenText(id[k..]);
      assert TokenText(id)[Width(k)..] == TokenText(id)[Width(k - 1)..][step..];
    }
  }

  lemma {:induction false} TokenSize(id: seq<byte>)
    requires |id| <= 16
    ensures |TokenText(id)| == 36 - Width(16 - |id|)
    decreases |id|
  {
    if id != [] {
      TokenSize(id[1..]);
    }
  }

  /** The text of a token, by position: two hexadecimal digits per byte, in groups of 4, 2, 2, 2 and 6 bytes. */
  lemma {:induction false} TokenTextAt(id: Uuid, k: nat)
    requires k < 16
    ensures
      var text := TokenText(id);
      var at := 2 * k + if k < 4 then 0 else if k < 6 then 1 else if k < 8 then 2 else if k < 10 then 3 else 4;
      && |text| == 36
      && text[at] == "0123456789abcdef"[id[k] as nat / 16]
      && text[at + 1] == "0123456789abcdef"[id[k] as nat % 16]
      && (k == 4 || k == 6 || k == 8 || k == 10 ==> text[at - 1] == '-')
  {
    TokenTail(id, k);
    TokenHead(id[k..]);
    var text, tail := TokenText(id), TokenText(id[k..]);
    var dash := if k == 4 || k == 6 || k == 8 || k == 10 then 1 else 0;
    assert text[Width(k)..][dash] == tail[dash] && text[Width(k)..][dash + 1] == tail[dash + 1];
    assert text[Width(k)..][0] == tail[0];
  }

  lemma HexDigitIs(n: nat)
    requires n < 16
    ensures HexDigit(n) == "0123456789abcdef"[n]
  {
  }

  lemma TokenHead(s: seq<byte>)
    requires s != []
    ensures
      var text := TokenText(s);
      var dash := if |s| == 12 || |s| == 10 || |s| == 8 || |s| == 6 then 1 else 0;
      && |text| >= 2 + dash
      && text[dash] == "0123456789abcdef"[s[0] as nat / 16]
      && text[dash + 1] == "0123456789abcdef"[s[0] as nat % 16]
      && (dash == 1 ==> text[0] == '-')
  {
    HexDigitIs(s[0] as nat / 16);
    HexDigitIs(s[0] as nat % 16);
  }

  /** Different tokens have different texts. */
  lemma {:induction false} TokenTextInjective(a: seq<byte>, b: seq<byte>)
    requires |a| == |b| && TokenText(a) == TokenText(b)
    ensures a == b
    decreases |a|
  {
    if a != [] {
      var dash := if |a| == 12 || |a| == 10 || |a| == 8 || |a| == 6 then 1 else 0;
      assert TokenText(a)[dash] == TokenText(b)[dash] && TokenText(a)[dash + 1] == TokenText(b)[dash + 1];
      HexByteInjective(a[0], b[0]);
      assert TokenText(a)[dash + 2..] == TokenText(a[1..]) && TokenText(b)[dash + 2..] == TokenText(b[1..]);
      TokenTextInjective(a[1..], b[1..]);
      assert a == [a[0]] + a[1..] && b == [b[0]] + b[1..];
    }
  }

  // ---------- creating sessions ----------

  datatype Session = Session(client: Uuid, token: Uuid)

  /** A creation under way: its token is registered, or its entity is made but not yet in the map. */
  datatype Creation = Registered(client: Uuid, token: Uuid) | Made(client: Uuid, session: Session)

  /**
   * The token store, the endpoint's map, the creations under way by request, and for every token
   * ever registered the client it was registered for.
   */
  datatype Endpoint = Endpoint(store: map<Uuid, Uuid>, entities: map<string, Session>,
                               pending: map<nat, Creation>, issued: map<Uuid, Uuid>)

  const NO_SESSIONS := Endpoint(map[], map[], map[], map[])

  datatype Act =
    | CreateToken(request: nat, client: Uuid, token: Uuid, ok: bool)
    | CreateEntity(request: nat, ok: bool)
    | AddEntity(request: nat)
    | Expire(token: Uuid)

  /** One atomic step of some request, or the expiry of a token; a step that fails ends its request. */
  predicate Next(e: Endpoint, act: Act, e': Endpoint) {
    match act
    case CreateToken(r, client, token, ok) =>
      && r !in e.pending && token !in e.issued
      && e' == if ok then e.(store := e.store[token := client], issued := e.issued[token := client],
                             pending := e.pending[r := Registered(client, token)])
               else e
    case CreateEntity(r, ok) =>
      && r in e.pending && e.pending[r].Registered?
      && var c := e.pending[r];
      && e' == if ok && c.token in e.store then
                 e.(pending := e.pending[r := Made(c.client, Session(e.store[c.token], c.token))])
               else e.(pending := e.pending - {r})
    case AddEntity(r) =>
      && r in e.pending && e.pending[r].Made?
      && var session := e.pending[r].session;
      && e' == e.(entities := e.entities[TokenText(session.token) := session], pending := e.pending - {r})
    case Expire(token) =>
      e' == e.(store := e.store - {token})
  }

  function GetEntity(e: Endpoint, token: string): Option<Session> {
    if token in e.entities then Some(e.entities[token]) else None
  }

  function TokenOf(c: Creation): Uuid {
    if c.Registered? then c.token else c.session.token
  }

  predicate Agrees(e: Endpoint, session: Session) {
    session.token in e.issued && e.issued[session.token] == session.client
  }

  predicate PendingRight(e: Endpoint, c: Creation) {
    && TokenOf(c) in e.issued && e.issued[TokenOf(c)] == c.client
    && (c.Made? ==> c.session.client == c.client)
    && TokenText(TokenOf(c)) !in e.entities
  }

  /** No two creations under way have the same token. */
  ghost predicate Unshared(pending: map<nat, Creation>) {
    forall r, q :: r in pending && q in pending && r != q ==> TokenOf(pending[r]) != TokenOf(pending[q])
  }

  /** Stored tokens and sessions belong to the client issued to; sessions sit under their own token's text. */
  ghost predicate Settled(e: Endpoint) {
    && (forall t :: t in e.store ==> t in e.issued && e.issued[t] == e.store[t])
    && (forall s :: s in e.entities ==> TokenText(e.entities[s].token) == s && Agrees(e, e.entities[s]))
  }

  ghost predicate Underway(e: Endpoint) {
    && (forall r :: r in e.pending ==> PendingRight(e, e.pending[r]))
    && Unshared(e.pending)
  }

  ghost predicate Good(e: Endpoint) {
    Settled(e) && Underway(e)
  }

  /** A creation enters, takes its next step or leaves; a new one has a token of its own. */
  lemma UnsharedEnter(pending: map<nat, Creation>, r: nat, c: Creation)
    requires Unshared(pending)
    requires forall q :: q in pending && q != r ==> TokenOf(pending[q]) != TokenOf(c)
    ensures Unshared(pending[r := c])
  {
  }

  lemma UnsharedLeave(pending: map<nat, Creation>, r: nat)
    requires Unshared(pending)
    ensures Unshared(pending - {r})
  {
  }

  /** A token never issued belongs to no session and to no creation under way. */
  lemma NewToken(e: Endpoint, token: Uuid)
    requires Good(e) && token !in e.issued
    ensures TokenText(token) !in e.entities
    ensures forall q :: q in e.pending ==> TokenOf(e.pending[q]) != token
  {
    if TokenText(token) in e.entities {
      TokenTextInjective(token, e.entities[TokenText(token)].token);
    }
    forall q | q in e.pending ensures TokenOf(e.pending[q]) != token {
      assert PendingRight(e, e.pending[q]);
    }
  }

  lemma CreateTokenGood(e: Endpoint, r: nat, client: Uuid, token: Uuid, e': Endpoint)
    requires Good(e) && Next(e, CreateToken(r, client, token, true), e')
    ensures Good(e')
  {
    CreateTokenUnderway(e, r, client, token, e');
    IssueSettled(e, client, token, e');
  }

  lemma IssueSettled(e: Endpoint, client: Uuid, token: Uuid, e': Endpoint)
    requires Settled(e) && token !in e.issued
    requires e'.store == e.store[token := client] && e'.issued == e.issued[token := client]
    requires e'.entities == e.entities
    ensures Settled(e')
  {
    forall s | s in e'.entities
      ensures TokenText(e'.entities[s].token) == s && Agrees(e', e'.entities[s])
    {
      assert Agrees(e, e.entities[s]);
    }
  }

  lemma CreateTokenUnderway(e: Endpoint, r: nat, client: Uuid, token: Uuid, e': Endpoint)
    requires Good(e) && Next(e, CreateToken(r, client, token, true), e')
    ensures Underway(e')
  {
    NewToken(e, token);
    forall q | q in e'.pending ensures PendingRight(e', e'.pending[q]) {
      assert q != r ==> PendingRight(e, e.pending[q]);
    }
    UnsharedEnter(e.pending, r, Registered(client, token));
  }

  lemma MadeGood(e: Endpoint, r: nat, session: Session, e': Endpoint)
    requires Good(e) && r in e.pending && session.token == TokenOf(e.pending[r])
    requires session.client == e.pending[r].client
    requires e' == e.(pending := e.pending[r := Made(e.pending[r].client, session)])
    ensures Good(e')
  {
    assert PendingRight(e, e.pending[r]);
    forall q | q in e'.pending ensures PendingRight(e', e'.pending[q]) {
      assert PendingRight(e, e.pending[q]);
    }
    UnsharedEnter(e.pending, r, Made(e.pending[r].client, session));
  }

  lemma DroppedGood(e: Endpoint, r: nat, e': Endpoint)
    requires Good(e) && e' == e.(pending := e.pending - {r})
    ensures Good(e')
  {
    forall q | q in e'.pending ensures PendingRight(e', e'.pending[q]) {
      assert PendingRight(e, e.pending[q]);
    }
    UnsharedLeave(e.pending, r);
  }

  lemma CreateEntityGood(e: Endpoint, r: nat, ok: bool, e': Endpoint)
    requires Good(e) && Next(e, CreateEntity(r, ok), e')
    ensures Good(e')
  {
    var c := e.pending[r];
    if ok && c.token in e.store {
      assert PendingRight(e, c);
      MadeGood(e, r, Session(e.store[c.token], c.token), e');
    } else {
      DroppedGood(e, r, e');
    }
  }

  lemma OtherText(e: Endpoint, r: nat, q: nat)
    requires Good(e) && r in e.pending && q in e.pending && q != r
    ensures TokenText(TokenOf(e.pending[q])) != TokenText(TokenOf(e.pending[r]))
  {
    if TokenText(TokenOf(e.pending[q])) == TokenText(TokenOf(e.pending[r])) {
      TokenTextInjective(TokenOf(e.pending[q]), TokenOf(e.pending[r]));
    }
  }

  lemma AddEntityGood(e: Endpoint, r: nat, e': Endpoint)
    requires Good(e) && Next(e, AddEntity(r), e')
    ensures Good(e')
  {
    AddEntityUnderway(e, r, e');
    assert PendingRight(e, e.pending[r]);
    assert Settled(e');
  }

  lemma AddEntityUnderway(e: Endpoint, r: nat, e': Endpoint)
    requires Good(e) && Next(e, AddEntity(r), e')
    ensures Underway(e')
  {
    forall q | q in e'.pending ensures PendingRight(e', e'.pending[q]) {
      assert PendingRight(e, e.pending[q]);
      OtherText(e, r, q);
    }
    UnsharedLeave(e.pending, r);
  }

  lemma ExpireGood(e: Endpoint, token: Uuid, e': Endpoint)
    requires Good(e) && Next(e, Expire(token), e')
    ensures Good(e')
  {
    forall q | q in e'.pending ensures PendingRight(e', e'.pending[q]) {
      assert PendingRight(e, e.pending[q]);
    }
  }

  lemma NextGood(e: Endpoint, act: Act, e': Endpoint)
    requires Good(e) && Next(e, act, e')
    ensures Good(e')
  {
    match act
    case CreateToken(r, client, token, ok) => if ok { CreateTokenGood(e, r, client, token, e'); }
    case CreateEntity(r, ok) => CreateEntityGood(e, r, ok, e');
    case AddEntity(r) => AddEntityGood(e, r, e');
    case Expire(token) => ExpireGood(e, token, e');
  }

  ghost predicate Run(states: seq<Endpoint>, acts: seq<Act>) {
    && |states| == |acts| + 1 && states[0] == NO_SESSIONS
    && forall i :: 0 <= i < |acts| ==> Next(states[i], acts[i], states[i + 1])
  }

  lemma {:induction false} RunGood(states: seq<Endpoint>, acts: seq<Act>, i: nat)
    requires Run(states, acts) && i < |states|
    ensures Good(states[i])
    decreases i
  {
    if i > 0 {
      RunGood(states, acts, i - 1);
      NextGood(states[i - 1], acts[i - 1], states[i]);
    }
  }

  /**
   * In any run, a lookup that succeeds gives a session with that very token and the client it was
   * issued to; and no step ever replaces or removes a session.
   */
  lemma LookupAgrees(states: seq<Endpoint>, acts: seq<Act>, i: nat, token: Uuid)
    requires Run(states, acts) && i < |acts|
    ensures
      var found := GetEntity(states[i], TokenText(token));
      found.Some? ==>
        && token in states[i].issued && found.value == Session(states[i].issued[token], token)
        && GetEntity(states[i + 1], TokenText(token)) == found
  {
    RunGood(states, acts, i);
    var e := states[i];
    if TokenText(token) in e.entities {
      TokenTextInjective(e.entities[TokenText(token)].token, token);
      assert Next(e, acts[i], states[i + 1]);
      if acts[i].AddEntity? {
        assert PendingRight(e, e.pending[acts[i].request]);
      }
    }
  }

  // ---------- which sessions are found ----------

  /** Step i adds a session whose token has the text. */
  predicate Adds(states: seq<Endpoint>, acts: seq<Act>, i: int, text: string) {
    && 0 <= i < |acts| && i < |states| && acts[i].AddEntity?
    && acts[i].request in states[i].pending && states[i].pending[acts[i].request].Made?
    && TokenText(states[i].pending[acts[i].request].session.token) == text
  }

  /** A session that is added is found under its token's text from then on. */
  lemma {:induction false} AddedIsFound(states: seq<Endpoint>, acts: seq<Act>, i: nat, j: nat)
    requires Run(states, acts) && i < j < |states| && acts[i].AddEntity?
    ensures acts[i].request in states[i].pending && states[i].pending[acts[i].request].Made?
    ensures
      var session := states[i].pending[acts[i].request].session;
      GetEntity(states[j], TokenText(session.token)) == Some(session)
    decreases j
  {
    assert Next(states[i], acts[i], states[i + 1]);
    if i + 1 < j {
      AddedIsFound(states, acts, i, j - 1);
      LookupAgrees(states, acts, j - 1, states[i].pending[acts[i].request].session.token);
    }
  }

  /** A lookup by any text succeeds exactly when some step so far added a session whose token has it. */
  lemma {:induction false} FoundIffAdded(states: seq<Endpoint>, acts: seq<Act>, j: nat, text: string)
    requires Run(states, acts) && j < |states|
    ensures GetEntity(states[j], text).Some? <==> exists i :: 0 <= i < j && Adds(states, acts, i, text)
    decreases j
  {
    if exists i :: 0 <= i < j && Adds(states, acts, i, text) {
      var i :| 0 <= i < j && Adds(states, acts, i, text);
      AddedIsFound(states, acts, i, j);
    } else if j > 0 {
      FoundIffAdded(states, acts, j - 1, text);
      assert Next(states[j - 1], acts[j - 1], states[j]);
      assert !Adds(states, acts, j - 1, text);
    }
  }

  predicate Concerns(act: Act, request: nat) {
    match act
    case CreateToken(r, _, _, _) => r == request
    case CreateEntity(r, _) => r == request
    case AddEntity(r) => r == request
    case Expire(_) => false
  }

  /** What one request is doing does not depend on the steps of others. */
  lemma {:induction false} PendingKept(states: seq<Endpoint>, acts: seq<Act>, r: nat, i: nat, j: nat)
    requires Run(states, acts) && i <= j < |states| && r in states[i].pending
    requires forall k :: i <= k < j ==> !Concerns(acts[k], r)
    ensures r in states[j].pending && states[j].pending[r] == states[i].pending[r]
    decreases j
  {
    if i < j {
      PendingKept(states, acts, r, i, j - 1);
      assert Next(states[j - 1], acts[j - 1], states[j]);
    }
  }

  /**
   * A creation whose three steps succeed, whatever other requests do in between: the token's text then
   * finds a session with that token and the client it was registered for.
   */
  lemma {:induction false} CreationIsFound(states: seq<Endpoint>, acts: seq<Act>, i: nat, j: nat, k: nat,
                                           r: nat, client: Uuid, token: Uuid)
    requires Run(states, acts) && i < j < k < |acts|
    requires acts[i] == CreateToken(r, client, token, true)
    requires acts[j] == CreateEntity(r, true) && token in states[j].store
    requires acts[k] == AddEntity(r)
    requires forall n :: i < n < k && n != j ==> !Concerns(acts[n], r)
    ensures GetEntity(states[k + 1], TokenText(token)) == Some(Session(client, token))
  {
    assert Next(states[i], acts[i], states[i + 1]);
    PendingKept(states, acts, r, i + 1, j);
    assert Next(states[j], acts[j], states[j + 1]);
    CreatedClient(states, acts, j, r);
    PendingKept(states, acts, r, j + 1, k);
    AddedIsFound(states, acts, k, k + 1);
  }

  lemma CreatedClient(states: seq<Endpoint>, acts: seq<Act>, j: nat, r: nat)
    requires Run(states, acts) && j < |states| && r in states[j].pending && states[j].pending[r].Registered?
    ensures
      var c := states[j].pending[r];
      c.token in states[j].store ==> states[j].store[c.token] == c.client
  {
    RunGood(states, acts, j);
    assert PendingRight(states[j], states[j].pending[r]);
  }

  /** Such a creation is possible for every client and every token. */
  lemma CreationIsPossible(client: Uuid, token: Uuid) returns (states: seq<Endpoint>, acts: seq<Act>)
    ensures Run(states, acts)
    ensures GetEntity(states[|acts|], TokenText(token)) == Some(Session(client, token))
  {
    var stored, session := map[token := client], Session(client, token);
    acts := [CreateToken(0, client, token, true), CreateEntity(0, true), AddEntity(0)];
    states := [
      NO_SESSIONS,
      Endpoint(stored, map[], map[0 := Registered(client, token)], stored),
      Endpoint(stored, map[], map[0 := Made(client, session)], stored),
      Endpoint(stored, map[TokenText(token) := session], map[], stored)
    ];
    assert Next(states[0], acts[0], states[1]);
    assert Next(states[1], acts[1], states[2]);
    assert Next(states[2], acts[2], states[3]);
  }
}
