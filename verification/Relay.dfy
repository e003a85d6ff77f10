/**
 The relay: a queue of callback payloads by token, drained by a poller that acknowledges with the
 last id it handed over.
 */
module Relay {
  import opened Prelude

  const PAGE: nat := 100
  const MAX_BODY: nat := 1_000_000
  const MIN_TOKEN: nat := 16

  datatype Payload = Payload(id: int, token: string, body: string)

  /** The tables; rows are in id order and ids are never used again. */
  datatype Server = Server(tokens: set<string>, payloads: seq<Payload>, next: int)

  datatype Status = Done | NoToken | UnknownToken | TooLarge | RegisterDisabled | Unauthorized | WeakToken

  // ---------------------------------------------------------------------------
  // Rows
  // ---------------------------------------------------------------------------

  /** A token's rows after an id. */
  function Wanted(rows: seq<Payload>, token: string, after: int): seq<Payload> {
    if rows == [] then []
    else
      var p := rows[|rows| - 1];
      Wanted(rows[..|rows| - 1], token, after) + (if p.token == token && p.id > after then [p] else [])
  }

  /** The rows an acknowledgment leaves. */
  function Unacked(rows: seq<Payload>, token: string, ack: int): seq<Payload> {
    if rows == [] then []
    else
      var p := rows[|rows| - 1];
      Unacked(rows[..|rows| - 1], token, ack) + (if p.token == token && p.id <= ack then [] else [p])
  }

  function First(rows: seq<Payload>, n: nat): seq<Payload> {
    if |rows| <= n then rows else rows[..n]
  }

  function LastId(rows: seq<Payload>, before: int): int {
    if rows == [] then before else rows[|rows| - 1].id
  }

  ghost predicate Ascending(rows: seq<Payload>) {
    forall i, j | 0 <= i < j < |rows| :: rows[i].id < rows[j].id
  }

  lemma WantedAppend(rows: seq<Payload>, p: Payload, token: string, after: int)
    ensures Wanted(rows + [p], token, after)
         == Wanted(rows, token, after) + (if p.token == token && p.id > after then [p] else [])
  {
    assert (rows + [p])[..|rows|] == rows;
  }

  lemma UnackedAppend(rows: seq<Payload>, p: Payload, token: string, ack: int)
    ensures Unacked(rows + [p], token, ack)
         == Unacked(rows, token, ack) + (if p.token == token && p.id <= ack then [] else [p])
  {
    assert (rows + [p])[..|rows|] == rows;
  }

  /** A row later than all that is kept may follow it. */
  lemma AscendingAppend(rows: seq<Payload>, kept: seq<Payload>, p: Payload)
    requires Ascending(rows + [p]) && Ascending(kept) && forall q | q in kept :: q in rows
    ensures Ascending(kept + [p])
  {
    forall i | 0 <= i < |kept| ensures kept[i].id < p.id {
      assert kept[i] in kept;
      var j :| 0 <= j < |rows| && rows[j] == kept[i];
      assert (rows + [p])[j].id < (rows + [p])[|rows|].id;
    }
  }

  lemma {:induction false} WantedRows(rows: seq<Payload>, token: string, after: int)
    requires Ascending(rows)
    ensures var w := Wanted(rows, token, after);
            && Ascending(w)
            && (forall p :: p in w <==> p in rows && p.token == token && p.id > after)
  {
    if rows != [] {
      var front, last := rows[..|rows| - 1], rows[|rows| - 1];
      WantedRows(front, token, after);
      assert rows == front + [last];
      WantedAppend(front, last, token, after);
      AscendingAppend(front, Wanted(front, token, after), last);
    }
  }

  lemma {:induction false} UnackedRows(rows: seq<Payload>, token: string, ack: int)
    requires Ascending(rows)
    ensures var u := Unacked(rows, token, ack);
            && Ascending(u)
            && (forall p :: p in u <==> p in rows && !(p.token == token && p.id <= ack))
  {
    if rows != [] {
      var front, last := rows[..|rows| - 1], rows[|rows| - 1];
      UnackedRows(front, token, ack);
      assert rows == front + [last];
      UnackedAppend(front, last, token, ack);
      AscendingAppend(front, Unacked(front, token, ack), last);
    }
  }

  /** An acknowledgment touches no row of another token, and none past it. */
  lemma {:induction false} WantedOfUnacked(rows: seq<Payload>, token: string, ack: int, other: string, after: int)
    requires other != token || ack <= after
    ensures Wanted(Unacked(rows, token, ack), other, after) == Wanted(rows, other, after)
  {
    if rows != [] {
      var front, last := rows[..|rows| - 1], rows[|rows| - 1];
      WantedOfUnacked(front, token, ack, other, after);
      assert rows == front + [last];
      UnackedAppend(front, last, token, ack);
      WantedAppend(front, last, other, after);
      var left := Unacked(front, token, ack);
      WantedAppend(left, last, other, after);
      assert left + [] == left && Wanted(left, other, after) + [] == Wanted(left, other, after);
    }
  }

  // ---------------------------------------------------------------------------
  // The server
  // ---------------------------------------------------------------------------

  function Accept(s: Server, token: string, body: string): Server {
    s.(payloads := s.payloads + [Payload(s.next, token, body)], next := s.next + 1)
  }

  function Admits(s: Server, token: Option<string>, body: string): Status {
    if token.None? then NoToken
    else if token.value !in s.tokens then UnknownToken
    else if |body| > MAX_BODY then TooLarge
    else Done
  }

  function Callback(s: Server, token: Option<string>, body: string): Server {
    if Admits(s, token, body).Done? then Accept(s, token.value, body) else s
  }

  /** The rows an optional acknowledgment leaves. */
  function Left(rows: seq<Payload>, token: string, ack: Option<int>): seq<Payload> {
    if ack.Some? then Unacked(rows, token, ack.value) else rows
  }

  function Page(rows: seq<Payload>, token: string, after: int): seq<Payload> {
    First(Wanted(rows, token, after), PAGE)
  }

  datatype Pulled = Pulled(server: Server, status: Status, items: seq<Payload>)

  function Pull(s: Server, requireRegister: bool, token: string, after: int, ack: Option<int>): Pulled {
    if token == "" then Pulled(s, NoToken, [])
    else if token !in s.tokens && requireRegister then Pulled(s, UnknownToken, [])
    else
      var left := Left(s.payloads, token, ack);
      Pulled(s.(tokens := s.tokens + {token}, payloads := left), Done, Page(left, token, after))
  }

  class RelayServer {
    const requireRegister: bool
    const adminToken: Option<string>
    var tokens: set<string>
    var payloads: seq<Payload>
    var next: int

    constructor (requireRegister: bool, adminToken: Option<string>)
      ensures Now() == Server({}, [], 1)
      ensures this.requireRegister == requireRegister && this.adminToken == adminToken
    {
      this.requireRegister, this.adminToken := requireRegister, adminToken;
      tokens, payloads, next := {}, [], 1;
    }

    function Now(): Server
      reads this
    {
      Server(tokens, payloads, next)
    }

    /** `POST /arc-callback`. */
    method ArcCallback(token: Option<string>, body: string) returns (status: Status)
      modifies this
      ensures status == Admits(old(Now()), token, body)
      ensures Now() == Callback(old(Now()), token, body)
    {
      if token.None? {
        return NoToken;
      }
      if token.value !in tokens {
        return UnknownToken;
      }
      if |body| > MAX_BODY {
        return TooLarge;
      }
      payloads := payloads + [Payload(next, token.value, body)];
      next := next + 1;
      status := Done;
    }

    /** `POST /register`, with the admin bearer. */
    method Register(bearer: Option<string>, token: string) returns (status: Status)
      modifies this`tokens
      ensures status.Done? <==> adminToken.Some? && bearer == adminToken && |token| >= 16
      ensures tokens == if status.Done? then old(tokens) + {token} else old(tokens)
    {
      if adminToken.None? {
        return RegisterDisabled;
      }
      if bearer != adminToken {
        return Unauthorized;
      }
      if |token| < MIN_TOKEN {
        return WeakToken;
      }
      tokens := tokens + {token};
      status := Done;
    }

    /** `GET /pull`: register, acknowledge, then the first page after `after`. */
    method PullPage(token: string, after: int, ack: Option<int>) returns (status: Status, items: seq<Payload>)
      modifies this
      ensures Pulled(Now(), status, items) == Pull(old(Now()), requireRegister, token, after, ack)
    {
      items := [];
      if token == "" {
        return NoToken, items;
      }
      if token !in tokens {
        if requireRegister {
          return UnknownToken, items;
        }
        tokens := tokens + {token};
      }
      assert tokens == old(tokens) + {token};
      if ack.Some? {
        payloads := Unacked(payloads, token, ack.value);
      }
      items := First(Wanted(payloads, token, after), PAGE);
      status := Done;
    }
  }

  // ---------------------------------------------------------------------------
  // The poller
  // ---------------------------------------------------------------------------

  /** Does ingest take this payload, when it is handed over? A failure is logged, and that is all. */
  type Ingest = Payload -> bool

  /** The payloads of an answer that ingest takes. */
  function TakenOf(items: seq<Payload>, ingest: Ingest): seq<Payload> {
    if items == [] then []
    else
      var p := items[|items| - 1];
      TakenOf(items[..|items| - 1], ingest) + (if ingest(p) then [p] else [])
  }

  lemma TakenAppend(items: seq<Payload>, p: Payload, ingest: Ingest)
    ensures TakenOf(items + [p], ingest) == TakenOf(items, ingest) + (if ingest(p) then [p] else [])
  {
    assert (items + [p])[..|items|] == items;
  }

  lemma {:induction false} TakenMeans(items: seq<Payload>, ingest: Ingest)
    ensures forall p :: p in TakenOf(items, ingest) <==> p in items && ingest(p)
  {
    if items != [] {
      TakenMeans(items[..|items| - 1], ingest);
      assert items == items[..|items| - 1] + [items[|items| - 1]];
    }
  }

  /** One client life: what it handed to ingest, what ingest took, and the last id it handed. */
  class Poller {
    const token: string
    var lastId: int
    var handed: seq<Payload>
    var taken: seq<Payload>

    constructor (token: string)
      ensures this.token == token && lastId == 0 && handed == [] && taken == []
    {
      this.token := token;
      lastId, handed, taken := 0, [], [];
    }

    /** The items of an answer, each to ingest and then counted, whatever ingest said. */
    method HandOver(items: seq<Payload>, ingest: Ingest)
      requires Ascending(items) && forall p | p in items :: p.id > lastId
      modifies this`lastId, this`handed, this`taken
      ensures handed == old(handed) + items && taken == old(taken) + TakenOf(items, ingest)
      ensures lastId == LastId(items, old(lastId))
    {
      for k := 0 to |items|
        invariant handed == old(handed) + items[..k] && taken == old(taken) + TakenOf(items[..k], ingest)
        invariant lastId == if k == 0 then old(lastId) else items[k - 1].id
      {
        assert items[k] in items && items[..k + 1] == items[..k] + [items[k]];
        TakenAppend(items[..k], items[k], ingest);
        if ingest(items[k]) {
          taken := taken + [items[k]];
        }
        handed := handed + [items[k]];
        lastId := if lastId < items[k].id then items[k].id else lastId;
      }
      assert items[..|items|] == items;
    }

    /** One tick. An answer that is lost, or does not parse, changes nothing here. */
    method Poll(relay: RelayServer, heard: bool, ingest: Ingest)
      requires Ascending(relay.payloads)
      modifies this`lastId, this`handed, this`taken, relay
      ensures var pulled := Pull(old(relay.Now()), relay.requireRegister, token, old(lastId), Some(old(lastId)));
              && relay.Now() == pulled.server
              && handed == (if heard then old(handed) + pulled.items else old(handed))
              && taken == (if heard then old(taken) + TakenOf(pulled.items, ingest) else old(taken))
              && lastId == (if heard then LastId(pulled.items, old(lastId)) else old(lastId))
    {
      ghost var before := relay.Now();
      var status, items := relay.PullPage(token, lastId, Some(lastId));
      if heard {
        PullAscends(before, relay.requireRegister, token, lastId, Some(lastId));
        HandOver(items, ingest);
      }
    }
  }

  lemma PullAscends(s: Server, requireRegister: bool, token: string, after: int, ack: Option<int>)
    requires Ascending(s.payloads)
    ensures var items := Pull(s, requireRegister, token, after, ack).items;
            Ascending(items) && forall p | p in items :: p.id > after
  {
    LeftMeans(s.payloads, token, ack);
    PageMeans(Left(s.payloads, token, ack), token, after);
  }

  // ---------------------------------------------------------------------------
  // Runs
  // ---------------------------------------------------------------------------

  /**
   The queue of one token and its one client. `life` is what the present client has handed over,
   `ever` what any has, `ingested` what ingest took of it; `accepted` is every payload the server
   ever took for the token; `high` is the highest id a client's `lastId` has been at.
   */
  datatype World = World(
    server: Server, requireRegister: bool, token: string,
    lastId: int, life: seq<Payload>, ever: set<Payload>, ingested: set<Payload>, accepted: set<Payload>, high: int)

  datatype Op =
    | CallbackOp(callbackToken: Option<string>, body: string)
    | RegisterOp(newToken: string)
    | PollOp(ingest: Ingest)
    | LostPollOp
    | CrashOp(handedFirst: nat, ingest: Ingest)
    | LatePollOp(lateAfter: int, lateAck: int)
    | OtherPullOp(otherToken: string, otherAfter: int, otherAck: Option<int>)

  /** One client per token: a late request is an old one of its own. */
  predicate Fits(w: World, op: Op) {
    match op
    case LatePollOp(_, ack) => ack <= w.high
    case OtherPullOp(other, _, _) => other != w.token
    case _ => true
  }

  function Max(a: int, b: int): int { if a < b then b else a }

  function ThePull(w: World): Pulled {
    Pull(w.server, w.requireRegister, w.token, w.lastId, Some(w.lastId))
  }

  function Spread(rows: seq<Payload>): set<Payload> {
    set p | p in rows
  }

  /** The client hands over the items it was given. */
  function Hand(w: World, server: Server, items: seq<Payload>): World {
    var at := LastId(items, w.lastId);
    w.(server := server, life := w.life + items, ever := w.ever + Spread(items), lastId := at, high := Max(w.high, at))
  }

  /** And ingest takes some of them. */
  function Took(w: World, items: seq<Payload>, ingest: Ingest): World {
    w.(ingested := w.ingested + Spread(TakenOf(items, ingest)))
  }

  /**
   `LostPollOp` reaches the server and its answer is lost or does not parse; `CrashOp` hands over
   the first items of the answer, dies, and a new client starts from nothing.
   */
  function Apply(w: World, op: Op): World {
    match op
    case CallbackOp(token, body) =>
      var after := Callback(w.server, token, body);
      w.(server := after,
         accepted := if after != w.server && token == Some(w.token)
                     then w.accepted + {Payload(w.server.next, w.token, body)} else w.accepted)
    case RegisterOp(token) => w.(server := w.server.(tokens := w.server.tokens + {token}))
    case PollOp(ingest) => Took(Hand(w, ThePull(w).server, ThePull(w).items), ThePull(w).items, ingest)
    case LostPollOp => w.(server := ThePull(w).server)
    case CrashOp(n, ingest) =>
      var items := First(ThePull(w).items, n);
      Took(Hand(w, ThePull(w).server, items), items, ingest).(life := [], lastId := 0)
    case LatePollOp(after, ack) =>
      w.(server := Pull(w.server, w.requireRegister, w.token, after, Some(ack)).server)
    case OtherPullOp(token, after, ack) =>
      w.(server := Pull(w.server, w.requireRegister, token, after, ack).server)
  }

  ghost predicate ServerOk(s: Server) {
    Ascending(s.payloads) && s.next >= 1 && forall p | p in s.payloads :: 0 < p.id < s.next
  }

  ghost predicate InQueue(w: World, p: Payload) {
    p in w.server.payloads && p.token == w.token
  }

  ghost predicate Ok(w: World) {
    && ServerOk(w.server) && 0 <= w.lastId <= w.high < w.server.next
    && (forall p | InQueue(w, p) :: p in w.accepted)
    && (forall p | p in w.accepted :: p.token == w.token && (p in w.server.payloads || p in w.ever))
    && (forall p | InQueue(w, p) && p.id <= w.high :: p in w.ever)
    && (forall p | InQueue(w, p) && p.id <= w.lastId :: p in w.life)
    && LifeOk(w)
  }

  /** Handed over in id order, so once each; nothing but accepted payloads of the token. */
  ghost predicate LifeOk(w: World) {
    && Ascending(w.life)
    && (forall p | p in w.life :: p.token == w.token && p.id <= w.lastId && p in w.ever && p in w.accepted)
    && (forall p | p in w.ever :: p in w.accepted)
  }

  ghost predicate LeftRows(rows: seq<Payload>, token: string, ack: Option<int>, left: seq<Payload>) {
    && Ascending(left)
    && forall p :: p in left <==> p in rows && !(p.token == token && ack.Some? && p.id <= ack.value)
  }

  lemma LeftMeans(rows: seq<Payload>, token: string, ack: Option<int>)
    requires Ascending(rows)
    ensures LeftRows(rows, token, ack, Left(rows, token, ack))
  {
    if ack.Some? {
      UnackedRows(rows, token, ack.value);
    }
  }

  /** A payload is queued exactly when its token is there, known, and it is no longer than a million. */
  lemma CallbackIsExact(s: Server, token: Option<string>, body: string)
    ensures var status, after := Admits(s, token, body), Callback(s, token, body);
            && (status.Done? <==> token.Some? && token.value in s.tokens && |body| <= 1_000_000)
            && (status.NoToken? <==> token.None?)
            && (status.UnknownToken? <==> token.Some? && token.value !in s.tokens)
            && (!status.Done? ==> after == s)
            && (status.Done? ==>
                  && after.tokens == s.tokens && after.next == s.next + 1
                  && after.payloads == s.payloads + [Payload(s.next, token.value, body)])
  {
  }

  /**
   A pull is served exactly for a token that is not empty and is known, or need not be; it makes the
   token known, and its page is the token's first hundred rows after the id: a row of it not there is
   later than a full page.
   */
  lemma PullIsExact(s: Server, requireRegister: bool, token: string, after: int, ack: Option<int>)
    requires Ascending(s.payloads)
    ensures var pulled := Pull(s, requireRegister, token, after, ack);
            && (pulled.status.Done? <==> token != "" && (token in s.tokens || !requireRegister))
            && (!pulled.status.Done? ==> pulled.server == s && pulled.items == [])
            && (pulled.status.Done? ==> pulled.server.tokens == s.tokens + {token})
            && (forall p | p in pulled.items :: p in pulled.server.payloads && p.token == token && p.id > after)
            && (pulled.status.Done? ==>
                  forall p | p in pulled.server.payloads && p.token == token && p.id > after ::
                    p in pulled.items || (|pulled.items| == 100 && forall q | q in pulled.items :: q.id < p.id))
  {
    var pulled := Pull(s, requireRegister, token, after, ack);
    LeftMeans(s.payloads, token, ack);
    var rows := pulled.server.payloads;
    WantedRows(rows, token, after);
    FirstLeavesLater(Wanted(rows, token, after), PAGE);
  }

  lemma FirstLeavesLater(all: seq<Payload>, n: nat)
    requires Ascending(all)
    ensures var page := First(all, n);
            && (forall p | p in page :: p in all)
            && forall p | p in all :: p in page || (|page| == n && forall q | q in page :: q.id < p.id)
  {
    var page := First(all, n);
    forall p | p in all && p !in page ensures |page| == n && forall q | q in page :: q.id < p.id {
      var i :| 0 <= i < |all| && all[i] == p;
      assert forall j | 0 <= j < |page| :: page[j] == all[j];
    }
  }

  ghost predicate PageRows(rows: seq<Payload>, token: string, after: int, page: seq<Payload>) {
    && Ascending(page) && |page| <= 100
    && forall p | p in page :: p in rows && p.token == token && p.id > after
  }

  lemma PageMeans(rows: seq<Payload>, token: string, after: int)
    requires Ascending(rows)
    ensures PageRows(rows, token, after, Page(rows, token, after))
  {
    WantedRows(rows, token, after);
    assert forall p | p in Page(rows, token, after) :: p in Wanted(rows, token, after);
  }

  /** What a pull for a token leaves: its own acknowledged rows gone, every other row there. */
  lemma PullMeans(s: Server, requireRegister: bool, token: string, after: int, ack: Option<int>)
    requires ServerOk(s)
    ensures var pulled := Pull(s, requireRegister, token, after, ack);
            && ServerOk(pulled.server) && pulled.server.next == s.next
            && LeftRows(s.payloads, token, if pulled.status.Done? then ack else None, pulled.server.payloads)
            && PageRows(pulled.server.payloads, token, after, pulled.items)
  {
    var pulled := Pull(s, requireRegister, token, after, ack);
    LeftMeans(s.payloads, token, ack);
    PageMeans(pulled.server.payloads, token, after);
  }

  lemma PageIsFirst(rows: seq<Payload>, token: string, after: int, n: nat, p: Payload)
    requires Ascending(rows) && p in rows && p.token == token
    requires after < p.id <= LastId(First(Page(rows, token, after), n), after)
    ensures p in First(Page(rows, token, after), n)
  {
    var all := Wanted(rows, token, after);
    WantedRows(rows, token, after);
    var m := if n < PAGE then n else PAGE;
    assert First(Page(rows, token, after), n) == First(all, m);
  }

  /** A pull of this token that acknowledges nothing but what was handed over loses nothing. */
  lemma PullKeeps(w: World, after: int, ack: int)
    requires Ok(w) && ack <= w.high
    ensures Ok(w.(server := Pull(w.server, w.requireRegister, w.token, after, Some(ack)).server))
  {
    PullMeans(w.server, w.requireRegister, w.token, after, Some(ack));
  }

  lemma OtherPullKeeps(w: World, token: string, after: int, ack: Option<int>)
    requires Ok(w) && token != w.token
    ensures Ok(w.(server := Pull(w.server, w.requireRegister, token, after, ack).server))
  {
    PullMeans(w.server, w.requireRegister, token, after, ack);
  }

  lemma FirstRows(rows: seq<Payload>, token: string, after: int, page: seq<Payload>, n: nat)
    requires PageRows(rows, token, after, page)
    ensures PageRows(rows, token, after, First(page, n))
  {
    assert forall p | p in First(page, n) :: p in page;
  }

  lemma HandedInOrder(w: World, items: seq<Payload>)
    requires LifeOk(w) && Ascending(items)
    requires forall p | p in items :: p.token == w.token && p.id > w.lastId && p in w.accepted
    ensures LifeOk(w.(life := w.life + items, ever := w.ever + Spread(items), lastId := LastId(items, w.lastId)))
    ensures w.lastId <= LastId(items, w.lastId)
  {
    var life := w.life + items;
    forall i, j | 0 <= i < j < |life| ensures life[i].id < life[j].id {
      if i < |w.life| <= j {
        assert w.life[i] in w.life && items[j - |w.life|] in items;
      }
    }
    if items != [] {
      assert items[|items| - 1] in items;
    }
  }

  /** Everything queued up to the last item handed over has been handed over. */
  lemma HandLeavesNoGap(w: World, n: nat, p: Payload)
    requires Ok(w)
    ensures var after := Hand(w, ThePull(w).server, First(ThePull(w).items, n));
            InQueue(after, p) && p.id <= after.lastId ==> p in after.life && p in after.ever
  {
    PullKeeps(w, w.lastId, w.lastId);
    var pulled, items := ThePull(w), First(ThePull(w).items, n);
    if p in pulled.server.payloads && p.token == w.token && w.lastId < p.id <= LastId(items, w.lastId) {
      PageIsFirst(pulled.server.payloads, w.token, w.lastId, n, p);
      assert p in items && p in w.life + items && p in Spread(items);
    }
  }

  /** The items of a page are handed over, in order, before any later row of the queue. */
  lemma HandKeeps(w: World, n: nat)
    requires Ok(w)
    ensures Ok(Hand(w, ThePull(w).server, First(ThePull(w).items, n)))
  {
    PullKeeps(w, w.lastId, w.lastId);
    PullMeans(w.server, w.requireRegister, w.token, w.lastId, Some(w.lastId));
    var pulled, items := ThePull(w), First(ThePull(w).items, n);
    FirstRows(pulled.server.payloads, w.token, w.lastId, pulled.items, n);
    forall p ensures var after := Hand(w, pulled.server, items);
                     InQueue(after, p) && p.id <= after.lastId ==> p in after.life && p in after.ever
    {
      HandLeavesNoGap(w, n, p);
    }
    HandedOk(w.(server := pulled.server), items);
  }

  lemma HandedOk(w: World, items: seq<Payload>)
    requires Ok(w) && PageRows(w.server.payloads, w.token, w.lastId, items)
    requires forall p :: var after := Hand(w, w.server, items);
                         InQueue(after, p) && p.id <= after.lastId ==> p in after.life && p in after.ever
    ensures Ok(Hand(w, w.server, items))
  {
    HandedInOrder(w, items);
    var after := Hand(w, w.server, items);
    if items != [] {
      assert items[|items| - 1] in items;
    }
    forall p | InQueue(after, p) && p.id <= after.high ensures p in after.ever {
      assert InQueue(w, p);
    }
  }

  lemma CallbackKeeps(w: World, token: Option<string>, body: string)
    requires Ok(w)
    ensures Ok(Apply(w, CallbackOp(token, body)))
  {
    var after := Apply(w, CallbackOp(token, body));
    if Admits(w.server, token, body).Done? {
      var p := Payload(w.server.next, token.value, body);
      assert after.server.payloads == w.server.payloads + [p];
      QueuedLast(w.server, p);
      assert p in after.server.payloads;
    }
  }

  lemma QueuedLast(s: Server, p: Payload)
    requires ServerOk(s) && p.id == s.next
    ensures ServerOk(s.(payloads := s.payloads + [p], next := s.next + 1))
  {
    assert forall i | 0 <= i < |s.payloads| :: s.payloads[i] in s.payloads;
  }

  lemma Reborn(w: World)
    requires Ok(w)
    ensures Ok(w.(life := [], lastId := 0))
  {
  }

  lemma StepKeepsOk(w: World, op: Op)
    requires Ok(w) && Fits(w, op)
    ensures Ok(Apply(w, op))
  {
    match op
    case CallbackOp(token, body) => CallbackKeeps(w, token, body);
    case RegisterOp(token) =>
    case PollOp(ingest) =>
      assert First(ThePull(w).items, PAGE) == ThePull(w).items;
      HandKeeps(w, PAGE);
      TookKeeps(Hand(w, ThePull(w).server, ThePull(w).items), ThePull(w).items, ingest);
    case LostPollOp => PullKeeps(w, w.lastId, w.lastId);
    case CrashOp(n, ingest) =>
      var items := First(ThePull(w).items, n);
      HandKeeps(w, n);
      TookKeeps(Hand(w, ThePull(w).server, items), items, ingest);
      Reborn(Took(Hand(w, ThePull(w).server, items), items, ingest));
    case LatePollOp(after, ack) => PullKeeps(w, after, ack);
    case OtherPullOp(token, after, ack) => OtherPullKeeps(w, token, after, ack);
  }

  lemma TookKeeps(w: World, items: seq<Payload>, ingest: Ingest)
    requires Ok(w)
    ensures Ok(Took(w, items, ingest))
  {
  }

  ghost predicate Runs(w: World, ops: seq<Op>)
    decreases |ops|
  {
    ops == [] || (Fits(w, ops[0]) && Runs(Apply(w, ops[0]), ops[1..]))
  }

  function After(w: World, ops: seq<Op>): World
    decreases |ops|
  {
    if |ops| == 0 then w else After(Apply(w, ops[0]), ops[1..])
  }

  function Born(token: string, requireRegister: bool): World {
    World(Server({}, [], 1), requireRegister, token, 0, [], {}, {}, {}, 0)
  }

  lemma {:induction false} RunKeepsOk(w: World, ops: seq<Op>)
    requires Ok(w) && Runs(w, ops)
    ensures Ok(After(w, ops)) && After(w, ops).token == w.token
    decreases |ops|
  {
    if ops != [] {
      StepKeepsOk(w, ops[0]);
      RunKeepsOk(Apply(w, ops[0]), ops[1..]);
    }
  }

  /**
   Under lost answers, failed parses, late requests and restarts: every payload accepted for the
   token is still queued or has been handed over; none is deleted before; within one client life
   each is handed over once, in id order; and only the token's own are.
   */
  lemma NothingIsLost(token: string, requireRegister: bool, ops: seq<Op>)
    requires Runs(Born(token, requireRegister), ops)
    ensures var w := After(Born(token, requireRegister), ops);
            && (forall p | p in w.accepted :: p in w.server.payloads || p in w.ever)
            && (forall p | p in w.accepted && p.id <= w.lastId :: p in w.ever)
            && Ascending(w.life)
            && (forall p | p in w.life :: p.token == token && p in w.accepted && p in w.ever)
            && (forall p | p in w.ever :: p.token == token && p in w.accepted)
  {
    RunKeepsOk(Born(token, requireRegister), ops);
  }

  // ---------------------------------------------------------------------------
  // What ingest took
  // ---------------------------------------------------------------------------

  /** The step hands the payload over. */
  ghost predicate Hands(w: World, op: Op, p: Payload) {
    match op
    case PollOp(_) => p in ThePull(w).items
    case CrashOp(n, _) => p in First(ThePull(w).items, n)
    case _ => false
  }

  ghost predicate EverHands(w: World, ops: seq<Op>, p: Payload)
    decreases |ops|
  {
    |ops| > 0 && (Hands(w, ops[0], p) || EverHands(Apply(w, ops[0]), ops[1..], p))
  }

  /** Some time it is handed over, ingest takes it. */
  ghost predicate EverTaken(w: World, ops: seq<Op>, p: Payload)
    decreases |ops|
  {
    |ops| > 0 &&
    ((Hands(w, ops[0], p) && ops[0].ingest(p)) || EverTaken(Apply(w, ops[0]), ops[1..], p))
  }

  lemma OneHanded(w: World, op: Op, p: Payload)
    ensures p in Apply(w, op).ever <==> p in w.ever || Hands(w, op, p)
    ensures p in Apply(w, op).ingested <==> p in w.ingested || (Hands(w, op, p) && op.ingest(p))
  {
    match op
    case PollOp(ingest) => TakenMeans(ThePull(w).items, ingest);
    case CrashOp(n, ingest) => TakenMeans(First(ThePull(w).items, n), ingest);
    case _ =>
  }

  lemma {:induction false} WhatWasHanded(w: World, ops: seq<Op>, p: Payload)
    ensures p in After(w, ops).ever <==> p in w.ever || EverHands(w, ops, p)
    ensures p in After(w, ops).ingested <==> p in w.ingested || EverTaken(w, ops, p)
    decreases |ops|
  {
    if |ops| > 0 {
      OneHanded(w, ops[0], p);
      WhatWasHanded(Apply(w, ops[0]), ops[1..], p);
    }
  }

  /**
   An accepted payload that has left the queue was handed over; and it left without being ingested
   exactly when, every time it was handed over, ingest did not take it.
   */
  lemma GoneUningested(token: string, requireRegister: bool, ops: seq<Op>, p: Payload)
    requires Runs(Born(token, requireRegister), ops)
    requires var w := After(Born(token, requireRegister), ops); p in w.accepted && p !in w.server.payloads
    ensures EverHands(Born(token, requireRegister), ops, p)
    ensures p !in After(Born(token, requireRegister), ops).ingested <==>
              !EverTaken(Born(token, requireRegister), ops, p)
  {
    NothingIsLost(token, requireRegister, ops);
    WhatWasHanded(Born(token, requireRegister), ops, p);
  }

  /** Ingest takes the payload whenever the step hands it over. */
  predicate Takes(op: Op, p: Payload) {
    op.PollOp? || op.CrashOp? ==> op.ingest(p)
  }

  lemma {:induction false} TakenWhenHanded(w: World, ops: seq<Op>, p: Payload)
    requires EverHands(w, ops, p) && forall i | 0 <= i < |ops| :: Takes(ops[i], p)
    ensures EverTaken(w, ops, p)
    decreases |ops|
  {
    assert Takes(ops[0], p);
    if !Hands(w, ops[0], p) {
      assert forall i | 0 <= i < |ops[1..]| :: ops[1..][i] == ops[i + 1];
      TakenWhenHanded(Apply(w, ops[0]), ops[1..], p);
    }
  }

  /**
   Where ingest takes a payload each time it is asked, none is lost: over every run, whatever the
   answers lost, the late requests and the restarts, it is still queued or has been ingested.
   */
  lemma TakenIsNeverLost(token: string, requireRegister: bool, ops: seq<Op>, p: Payload)
    requires Runs(Born(token, requireRegister), ops) && forall i | 0 <= i < |ops| :: Takes(ops[i], p)
    ensures var w := After(Born(token, requireRegister), ops);
            p in w.accepted ==> p in w.server.payloads || p in w.ingested
  {
    var w := After(Born(token, requireRegister), ops);
    if p in w.accepted && p !in w.server.payloads {
      GoneUningested(token, requireRegister, ops, p);
      TakenWhenHanded(Born(token, requireRegister), ops, p);
    }
  }

  /** Another token's pulls and callbacks do not change this one's queue, nor see it. */
  lemma TokensAreApart(
      s: Server, requireRegister: bool, token: string, after: int, ack: Option<int>, mine: string, from: int)
    requires ServerOk(s) && mine != token
    ensures var pulled := Pull(s, requireRegister, token, after, ack);
            && Wanted(pulled.server.payloads, mine, from) == Wanted(s.payloads, mine, from)
            && forall p | p in pulled.items :: p.token != mine
  {
    if ack.Some? {
      WantedOfUnacked(s.payloads, token, ack.value, mine, from);
    }
    PullMeans(s, requireRegister, token, after, ack);
  }

  // ---------------------------------------------------------------------------
  // A quiet queue drains
  // ---------------------------------------------------------------------------

  function Polled(ingest: Ingest): World -> World { (w: World) => Apply(w, PollOp(ingest)) }

  function Repeat(step: World -> World, w: World, n: nat): World
    decreases n
  {
    if n == 0 then w else Repeat(step, step(w), n - 1)
  }

  function Polls(w: World, n: nat, ingest: Ingest): World { Repeat(Polled(ingest), w, n) }

  /** What the client has still to be handed. */
  function Waiting(w: World): seq<Payload> {
    Wanted(w.server.payloads, w.token, w.lastId)
  }

  ghost predicate Served(w: World) {
    w.token != "" && (w.token in w.server.tokens || !w.requireRegister)
  }

  lemma FrontAndLast(rows: seq<Payload>) returns (front: seq<Payload>, last: Payload)
    requires rows != []
    ensures rows == front + [last] && |front| < |rows|
  {
    front, last := rows[..|rows| - 1], rows[|rows| - 1];
  }

  lemma {:induction false} WantedAgain(rows: seq<Payload>, token: string, low: int, high: int)
    requires low <= high
    ensures Wanted(Wanted(rows, token, low), token, high) == Wanted(rows, token, high)
    decreases |rows|
  {
    if rows != [] {
      var front, last := FrontAndLast(rows);
      WantedAgain(front, token, low, high);
      WantedAppend(front, last, token, low);
      WantedAppend(front, last, token, high);
      var some := Wanted(front, token, low);
      if last.token == token && last.id > low {
        WantedAppend(some, last, token, high);
      } else {
        assert some + [] == some && Wanted(front, token, high) + [] == Wanted(front, token, high);
      }
    }
  }

  lemma {:induction false} WantedJoins(a: seq<Payload>, b: seq<Payload>, token: string, after: int)
    ensures Wanted(a + b, token, after) == Wanted(a, token, after) + Wanted(b, token, after)
  {
    if b == [] {
      assert a + b == a;
    } else {
      var front, last := b[..|b| - 1], b[|b| - 1];
      WantedJoins(a, front, token, after);
      assert b == front + [last] && a + b == (a + front) + [last];
      WantedAppend(front, last, token, after);
      WantedAppend(a + front, last, token, after);
    }
  }

  lemma {:induction false} AllAfter(rows: seq<Payload>, token: string, after: int)
    requires forall i | 0 <= i < |rows| :: rows[i].token == token && rows[i].id > after
    ensures Wanted(rows, token, after) == rows
  {
    if rows != [] {
      AllAfter(rows[..|rows| - 1], token, after);
    }
  }

  lemma OnlyLater(a: seq<Payload>, b: seq<Payload>, token: string, at: int)
    requires forall i | 0 <= i < |a| :: a[i].id <= at
    requires forall i | 0 <= i < |b| :: b[i].token == token && b[i].id > at
    ensures Wanted(a + b, token, at) == b
  {
    WantedJoins(a, b, token, at);
    NoneAfter(a, token, at);
    AllAfter(b, token, at);
  }

  lemma PastTheKth(all: seq<Payload>, token: string, k: nat)
    requires Ascending(all) && 0 < k <= |all| && forall i | 0 <= i < |all| :: all[i].token == token
    ensures Wanted(all, token, all[k - 1].id) == all[k..]
  {
    var a, b := all[..k], all[k..];
    assert forall i | 0 <= i < k :: a[i] == all[i] && (i < k - 1 ==> all[i].id < all[k - 1].id);
    assert forall i | 0 <= i < |b| :: b[i] == all[k + i] && all[k - 1].id < all[k + i].id;
    OnlyLater(a, b, token, all[k - 1].id);
    assert all == a + b;
  }

  /** The rows wanted after the k-th of those wanted are the ones that follow it. */
  lemma WantedPast(rows: seq<Payload>, token: string, after: int, k: nat)
    requires Ascending(rows) && 0 < k <= |Wanted(rows, token, after)|
    ensures Wanted(rows, token, Wanted(rows, token, after)[k - 1].id) == Wanted(rows, token, after)[k..]
  {
    var all := Wanted(rows, token, after);
    WantedRows(rows, token, after);
    assert forall i | 0 <= i < |all| :: all[i] in all;
    WantedAgain(rows, token, after, all[k - 1].id);
    PastTheKth(all, token, k);
  }

  lemma {:induction false} NoneAfter(rows: seq<Payload>, token: string, after: int)
    requires forall i | 0 <= i < |rows| :: rows[i].id <= after
    ensures Wanted(rows, token, after) == []
  {
    if rows != [] {
      NoneAfter(rows[..|rows| - 1], token, after);
    }
  }

  lemma WaitingAfterPage(rows: seq<Payload>, token: string, after: int)
    requires Ascending(rows)
    ensures var page := Page(rows, token, after);
            Wanted(rows, token, LastId(page, after)) == Wanted(rows, token, after)[|page|..]
  {
    var page, all := Page(rows, token, after), Wanted(rows, token, after);
    if page != [] {
      WantedPast(rows, token, after, |page|);
      assert page[|page| - 1] == all[|page| - 1];
    }
  }

  /** The rows one poll acknowledges are not those it hands over. */
  lemma PollPulls(w: World)
    requires Ok(w) && Served(w)
    ensures var pulled := ThePull(w);
            && pulled.status.Done? && pulled.items == First(Waiting(w), PAGE)
            && Wanted(pulled.server.payloads, w.token, w.lastId) == Waiting(w)
            && Ascending(pulled.server.payloads)
            && forall p | p in pulled.server.payloads && p.token == w.token :: p in Waiting(w)
  {
    WantedOfUnacked(w.server.payloads, w.token, w.lastId, w.token, w.lastId);
    UnackedRows(w.server.payloads, w.token, w.lastId);
    WantedRows(w.server.payloads, w.token, w.lastId);
  }

  /** One poll hands over the next hundred and empties the queue up to where it stood. */
  lemma OnePoll(w: World, ingest: Ingest)
    requires Ok(w) && Served(w)
    ensures var after := Apply(w, PollOp(ingest));
            && Ok(after) && Served(after)
            && after.life == w.life + First(Waiting(w), 100)
            && Waiting(after) == Waiting(w)[|First(Waiting(w), 100)|..]
            && (forall p | InQueue(after, p) :: p in Waiting(w))
  {
    StepKeepsOk(w, PollOp(ingest));
    PollPulls(w);
    WaitingAfterPage(ThePull(w).server.payloads, w.token, w.lastId);
  }

  /** What a poll ingests of what waits. */
  lemma PollIngests(w: World, ingest: Ingest, p: Payload)
    requires Ok(w) && Served(w)
    ensures p in Apply(w, PollOp(ingest)).ingested <==>
              p in w.ingested || (p in First(Waiting(w), 100) && ingest(p))
  {
    PollPulls(w);
    TakenMeans(First(Waiting(w), PAGE), ingest);
  }

  /** A payload called back for a known token waits last. */
  lemma CalledWaitsLast(w: World, body: string) returns (called: World, p: Payload)
    requires Ok(w) && Served(w) && w.token in w.server.tokens && |body| <= 1_000_000
    ensures called == Apply(w, CallbackOp(Some(w.token), body)) && p == Payload(w.server.next, w.token, body)
    ensures Ok(called) && Served(called) && Waiting(called) == Waiting(w) + [p]
    ensures called.life == w.life && called.ingested == w.ingested && p in called.accepted
  {
    called, p := Apply(w, CallbackOp(Some(w.token), body)), Payload(w.server.next, w.token, body);
    CallbackIsExact(w.server, Some(w.token), body);
    StepKeepsOk(w, CallbackOp(Some(w.token), body));
    WantedAppend(w.server.payloads, p, w.token, w.lastId);
  }

  /**
   A payload called back for a token the relay knows reaches its client: after the next poll it is the
   last handed over, where fewer than a hundred waited before it.
   */
  lemma CallbackIsHandedOver(w: World, body: string, ingest: Ingest)
    requires Ok(w) && Served(w) && w.token in w.server.tokens && |body| <= 1_000_000 && |Waiting(w)| < 100
    ensures var p := Payload(w.server.next, w.token, body);
            var called := Apply(w, CallbackOp(Some(w.token), body));
            var after := Apply(called, PollOp(ingest));
            && p in called.accepted && after.life == w.life + (Waiting(w) + [p])
            && (p in after.ingested <==> p in w.ingested || ingest(p))
  {
    var called, p := CalledWaitsLast(w, body);
    OnePoll(called, ingest);
    PollIngests(called, ingest, p);
  }

  lemma Slices(life: seq<Payload>, all: seq<Payload>, j: nat, k: nat)
    requires j <= |all| && k == Min(j + PAGE, |all|)
    ensures First(all[j..], PAGE) == all[j..k]
    ensures (life + all[..j]) + all[j..k] == life + all[..k]
    ensures all[j..][k - j..] == all[k..]
  {
  }

  ghost predicate HandedUpTo(now: World, life: seq<Payload>, all: seq<Payload>, k: nat) {
    Ok(now) && Served(now) && k <= |all| && now.life == life + all[..k] && Waiting(now) == all[k..]
  }

  lemma NextPoll(now: World, ingest: Ingest, life: seq<Payload>, all: seq<Payload>, j: nat)
    requires HandedUpTo(now, life, all, j)
    ensures HandedUpTo(Apply(now, PollOp(ingest)), life, all, Min(j + PAGE, |all|))
  {
    OnePoll(now, ingest);
    Slices(life, all, j, Min(j + PAGE, |all|));
  }

  lemma NothingHandedYet(w: World)
    requires Ok(w) && Served(w)
    ensures HandedUpTo(w, w.life, Waiting(w), 0)
  {
  }

  /** What every step keeps, `n` of them keep. */
  lemma {:induction false} StepsKeep(step: World -> World, keeps: (World, nat) -> bool, w: World, j: nat, n: nat)
    requires forall v, i: nat | keeps(v, i) :: keeps(step(v), i + 1)
    requires keeps(w, j)
    ensures keeps(Repeat(step, w, n), j + n)
    decreases n
  {
    if n > 0 {
      StepsKeep(step, keeps, step(w), j + 1, n - 1);
    }
  }

  ghost predicate PagesHanded(now: World, life: seq<Payload>, all: seq<Payload>, n: nat) {
    HandedUpTo(now, life, all, Min(PAGE * n, |all|))
  }

  lemma NextPage(now: World, ingest: Ingest, life: seq<Payload>, all: seq<Payload>, i: nat)
    requires PagesHanded(now, life, all, i)
    ensures PagesHanded(Polled(ingest)(now), life, all, i + 1)
  {
    NextPoll(now, ingest, life, all, Min(PAGE * i, |all|));
  }

  /** `n` polls hand over a page each. */
  lemma PollsHandOver(w: World, ingest: Ingest, life: seq<Payload>, all: seq<Payload>, n: nat)
    requires HandedUpTo(w, life, all, 0)
    ensures PagesHanded(Polls(w, n, ingest), life, all, n)
  {
    var keeps := (v: World, i: nat) => PagesHanded(v, life, all, i);
    forall v, i: nat | keeps(v, i)
      ensures keeps(Polled(ingest)(v), i + 1)
    {
      NextPage(v, ingest, life, all, i);
    }
    StepsKeep(Polled(ingest), keeps, w, 0, n);
  }

  lemma {:induction false} OneMoreStep(step: World -> World, w: World, n: nat)
    ensures Repeat(step, w, n + 1) == step(Repeat(step, w, n))
    decreases n
  {
    if n > 0 {
      OneMoreStep(step, step(w), n - 1);
    }
  }

  lemma EmptyOnePollLater(w: World, ingest: Ingest)
    requires Ok(w) && Served(w) && Waiting(w) == []
    ensures forall p | p in Apply(w, PollOp(ingest)).server.payloads :: p.token != w.token
  {
    OnePoll(w, ingest);
    forall p | p in Apply(w, PollOp(ingest)).server.payloads ensures p.token != w.token {
      assert !InQueue(Apply(w, PollOp(ingest)), p);
    }
  }

  /** A queue of `n` left alone is handed over within ceil(n/100) polls, and is empty one poll later. */
  lemma QuietQueueDrains(w: World, n: nat, ingest: Ingest)
    requires Ok(w) && Served(w) && n == (|Waiting(w)| + 99) / 100
    ensures Polls(w, n, ingest).life == w.life + Waiting(w) && Waiting(Polls(w, n, ingest)) == []
    ensures forall p | p in Polls(w, n + 1, ingest).server.payloads :: p.token != w.token
  {
    NothingHandedYet(w);
    PollsHandOver(w, ingest, w.life, Waiting(w), n);
    OneMoreStep(Polled(ingest), w, n);
    EmptyOnePollLater(Polls(w, n, ingest), ingest);
    SameToken(w, n, ingest);
  }

  lemma {:induction false} SameToken(w: World, n: nat, ingest: Ingest)
    ensures Polls(w, n, ingest).token == w.token
    decreases n
  {
    if n > 0 {
      SameToken(Polled(ingest)(w), n - 1, ingest);
    }
  }

  // ---------------------------------------------------------------------------
  // One failed ingest
  // ---------------------------------------------------------------------------

  /** Ids are never used again: a row that has left the queue is not there later, nor handed over. */
  lemma StepLeavesGone(w: World, op: Op, p: Payload)
    requires Ok(w) && Fits(w, op) && p.id < w.server.next && p !in w.server.payloads
    ensures var after := Apply(w, op);
            && p.id < after.server.next && p !in after.server.payloads
            && (p in w.accepted ==> p in after.accepted)
            && (p in after.ingested <==> p in w.ingested)
  {
    OneHanded(w, op, p);
    PullMeans(w.server, w.requireRegister, w.token, w.lastId, Some(w.lastId));
    match op
    case LatePollOp(after, ack) => PullMeans(w.server, w.requireRegister, w.token, after, Some(ack));
    case OtherPullOp(token, after, ack) => PullMeans(w.server, w.requireRegister, token, after, ack);
    case _ =>
  }

  lemma {:induction false} GoneForGood(w: World, ops: seq<Op>, p: Payload)
    requires Ok(w) && Runs(w, ops) && p.id < w.server.next && p in w.accepted && p !in w.server.payloads
    ensures var end := After(w, ops);
            && p in end.accepted && p !in end.server.payloads
            && (p in end.ingested <==> p in w.ingested)
    decreases |ops|
  {
    if ops != [] {
      StepKeepsOk(w, ops[0]);
      StepLeavesGone(w, ops[0], p);
      GoneForGood(Apply(w, ops[0]), ops[1..], p);
    }
  }

  lemma InFirstNotPast(all: seq<Payload>, n: nat, p: Payload)
    requires Ascending(all) && p in First(all, n)
    ensures p !in all[|First(all, n)|..]
  {
    var page := First(all, n);
    var i :| 0 <= i < |page| && page[i] == p;
    forall j | 0 <= j < |all| - |page| ensures all[|page|..][j] != p {
      assert all[i].id < all[|page| + j].id;
    }
  }

  function TwoPolls(w: World, first: Ingest, second: Ingest): World {
    Apply(Apply(w, PollOp(first)), PollOp(second))
  }

  /** A poll moves its page past what is waiting, and ingests of it just what ingest takes. */
  lemma OncePolled(w: World, ingest: Ingest, p: Payload)
    requires Ok(w) && Served(w) && p in First(Waiting(w), PAGE) && p !in w.ingested
    ensures var once := Apply(w, PollOp(ingest));
            && Ok(once) && Served(once) && once.token == w.token && once.server.next == w.server.next
            && p !in Waiting(once) && p.token == w.token && p.id < w.server.next
            && (p in once.ingested <==> ingest(p))
  {
    WantedRows(w.server.payloads, w.token, w.lastId);
    assert p in Waiting(w);
    OnePoll(w, ingest);
    InFirstNotPast(Waiting(w), PAGE, p);
    PollPulls(w);
    OneHanded(w, PollOp(ingest), p);
  }

  /** The next one clears it from the queue, and does not ask ingest again. */
  lemma PolledPast(once: World, later: Ingest, p: Payload)
    requires Ok(once) && Served(once) && p !in Waiting(once) && p.token == once.token && p.id < once.server.next
    ensures var twice := Apply(once, PollOp(later));
            && Ok(twice) && p !in twice.server.payloads && p.id < twice.server.next
            && (p in twice.ingested <==> p in once.ingested)
            && (p in once.accepted ==> p in twice.accepted)
  {
    PollPulls(once);
    OnePoll(once, later);
    OneHanded(once, PollOp(later), p);
    assert !InQueue(Apply(once, PollOp(later)), p);
  }

  /**
   The first answer decides: a payload handed over by a poll is off the queue with the next poll
   the relay answers; it is ingested then, and after whatever follows, if and only if ingest took
   it the first time.
   */
  lemma FirstAnswerDecides(w: World, ingest: Ingest, later: Ingest, ops: seq<Op>, p: Payload)
    requires Ok(w) && Served(w) && p in First(Waiting(w), PAGE) && p !in w.ingested
    requires Runs(TwoPolls(w, ingest, later), ops)
    ensures var end := After(TwoPolls(w, ingest, later), ops);
            && p in end.accepted && p !in end.server.payloads
            && (p in end.ingested <==> ingest(p))
  {
    WantedRows(w.server.payloads, w.token, w.lastId);
    assert p in Waiting(w) && InQueue(w, p);
    OncePolled(w, ingest, p);
    PolledPast(Apply(w, PollOp(ingest)), later, p);
    GoneForGood(TwoPolls(w, ingest, later), ops, p);
  }
}
