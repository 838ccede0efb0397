/** The hash-chained audit log (app/audit.py) under its per-transaction lock (app/serialization.py).
    The hash is a function from text to 64 lower-case hexadecimal digits; where a result needs it to
    be collision-free, only the texts actually hashed are asked not to collide. */
module Audit {
  import opened Text
  import opened Json
  import opened Runs
  import opened Locks

  const GENESIS: string := "GENESIS"

  type Hash = string -> string

  /** A row of `audit_events`. `createdAt` is its ISO text. */
  datatype Event = Event(transactionId: string, agentId: string, parentId: Option<string>, orgId: string, kind: string,
                         detail: map<string, Json>, createdAt: string, prevHash: string, eventHash: string, version: int)

  /** What a caller of `record_audit` supplies, with the clock. */
  datatype Entry = Entry(transactionId: string, agentId: string, parentId: Option<string>, orgId: string, kind: string,
                         detail: map<string, Json>, createdAt: string)

  function OptStr(o: Option<string>): Json {
    match o
    case None => JNull
    case Some(s) => JStr(s)
  }

  /** A missing version (zero) is read as the first. */
  predicate FirstFormat(version: int) {
    version == 0 || version == 1
  }

  function FirstPreimage(prev: string, detail: map<string, Json>): string {
    prev + Print(JObj(detail))
  }

  function SecondPayload(prev: string, e: Event): Json {
    JObj(map[
      "prev_hash" := JStr(prev), "kind" := JStr(e.kind), "agent_id" := JStr(e.agentId), "parent_id" := OptStr(e.parentId),
      "org_id" := JStr(e.orgId), "transaction_id" := JStr(e.transactionId), "created_at" := JStr(e.createdAt),
      "detail" := JObj(e.detail)])
  }

  /** The text whose hash a row must carry. */
  function Preimage(e: Event): string {
    if FirstFormat(e.version) then FirstPreimage(e.prevHash, e.detail) else Print(SecondPayload(e.prevHash, e))
  }

  function Head(chain: seq<Event>): string {
    if chain == [] then GENESIS else chain[|chain| - 1].eventHash
  }

  /** The rows of one transaction, in id order. */
  function Of(table: seq<Event>, tx: string): seq<Event> {
    if table == [] then []
    else Of(table[..|table| - 1], tx) + if table[|table| - 1].transactionId == tx then [table[|table| - 1]] else []
  }

  predicate Links(h: Hash, head: string, e: Event) {
    e.prevHash == head && e.eventHash == h(Preimage(e))
  }

  predicate Verifies(h: Hash, chain: seq<Event>) {
    chain == [] || (Verifies(h, chain[..|chain| - 1]) && Links(h, Head(chain[..|chain| - 1]), chain[|chain| - 1]))
  }

  /** The row `record_audit` adds after `head`. */
  function Chained(h: Hash, head: string, e: Entry): Event {
    var row := Event(e.transactionId, e.agentId, e.parentId, e.orgId, e.kind, e.detail, e.createdAt, head, "", 2);
    row.(eventHash := h(Preimage(row)))
  }

  lemma ChainedLinks(h: Hash, head: string, e: Entry)
    ensures Links(h, head, Chained(h, head, e)) && Keeps(Chained(h, head, e), e)
  {
    var row := Event(e.transactionId, e.agentId, e.parentId, e.orgId, e.kind, e.detail, e.createdAt, head, "", 2);
    assert SecondPayload(head, row) == SecondPayload(head, Chained(h, head, e));
  }

  /** The row says what it was given to say, in the format that covers all of it. */
  predicate Keeps(row: Event, e: Entry) {
    && row.transactionId == e.transactionId && row.agentId == e.agentId && row.parentId == e.parentId && row.orgId == e.orgId
    && row.kind == e.kind && row.detail == e.detail && row.createdAt == e.createdAt && row.version == 2
  }

  class AuditLog {
    var table: seq<Event>

    constructor ()
      ensures table == []
    {
      table := [];
    }

    /** The newest row of the transaction. */
    method LastOf(tx: string) returns (prev: Option<Event>)
      ensures prev == if Of(table, tx) == [] then None else Some(Of(table, tx)[|Of(table, tx)| - 1])
    {
      prev := None;
      for i := 0 to |table|
        invariant prev == if Of(table[..i], tx) == [] then None else Some(Of(table[..i], tx)[|Of(table[..i], tx)| - 1])
      {
        assert table[..i + 1][..i] == table[..i];
        if table[i].transactionId == tx { prev := Some(table[i]); }
      }
      assert table[..|table|] == table;
    }

    method RecordAudit(h: Hash, e: Entry)
      modifies this
      ensures table == old(table) + [Chained(h, Head(Of(old(table), e.transactionId)), e)]
      ensures |table| == |old(table)| + 1 && table[..|old(table)|] == old(table) && Keeps(table[|old(table)|], e)
    {
      ChainedLinks(h, Head(Of(table, e.transactionId)), e);
      var prev := LastOf(e.transactionId);
      var head := if prev.Some? then prev.value.eventHash else GENESIS;
      var row := Event(e.transactionId, e.agentId, e.parentId, e.orgId, e.kind, e.detail, e.createdAt, head, "", 2);
      table := table + [row.(eventHash := h(Preimage(row)))];
    }

    method VerifyChain(h: Hash, tx: string) returns (ok: bool)
      ensures ok == Verifies(h, Of(table, tx))
    {
      ok := VerifyEvents(h, Of(table, tx));
    }
  }

  method VerifyEvents(h: Hash, events: seq<Event>) returns (ok: bool)
    ensures ok == Verifies(h, events)
  {
    var prevHash := GENESIS;
    for i := 0 to |events|
      invariant prevHash == Head(events[..i]) && Verifies(h, events[..i])
    {
      var e := events[i];
      assert events[..i + 1][..i] == events[..i];
      if e.prevHash != prevHash {
        BrokenStaysBroken(h, events, i + 1);
        return false;
      }
      var expected := if FirstFormat(e.version) then h(FirstPreimage(e.prevHash, e.detail)) else h(Print(SecondPayload(e.prevHash, e)));
      if e.eventHash != expected {
        BrokenStaysBroken(h, events, i + 1);
        return false;
      }
      prevHash := e.eventHash;
    }
    assert events[..|events|] == events;
    ok := true;
  }

  /** A chain verifies only if each of its prefixes does. */
  lemma {:induction false} BrokenStaysBroken(h: Hash, chain: seq<Event>, n: nat)
    requires n <= |chain| && !Verifies(h, chain[..n])
    ensures !Verifies(h, chain)
    decreases |chain|
  {
    if n == |chain| {
      assert chain[..n] == chain;
    } else {
      assert chain[..|chain| - 1][..n] == chain[..n];
      BrokenStaysBroken(h, chain[..|chain| - 1], n);
    }
  }

  // ------------------------------------------------------------------ what a hash commits to

  /** What a row's format covers: the first only the detail, the second everything. */
  datatype Commitment =
    | DetailOnly(detail: map<string, Json>)
    | Everything(kind: string, agentId: string, parentId: Option<string>, orgId: string, transactionId: string,
                 createdAt: string, detail: map<string, Json>)

  function Committed(e: Event): Commitment {
    if FirstFormat(e.version) then DetailOnly(e.detail)
    else Everything(e.kind, e.agentId, e.parentId, e.orgId, e.transactionId, e.createdAt, e.detail)
  }

  predicate LowerHex(c: char) {
    '0' <= c <= '9' || 'a' <= c <= 'f'
  }

  predicate IsDigest(s: string) {
    |s| == 64 && forall i :: 0 <= i < 64 ==> LowerHex(s[i])
  }

  ghost predicate Digests(h: Hash) {
    forall x :: IsDigest(h(x))
  }

  /** What a chained row points back to. */
  predicate IsLink(s: string) {
    s == GENESIS || IsDigest(s)
  }

  /** The rows hash different texts to the same digest. */
  predicate Collide(h: Hash, x: Event, y: Event) {
    h(Preimage(x)) == h(Preimage(y)) && Preimage(x) != Preimage(y)
  }

  ghost predicate NoCollision(h: Hash, a: seq<Event>, b: seq<Event>) {
    forall x, y | x in a && y in b :: !Collide(h, x, y)
  }

  lemma FirstFormatInjective(prev: string, detail: map<string, Json>, prev2: string, detail2: map<string, Json>)
    requires IsLink(prev) && IsLink(prev2) && FirstPreimage(prev, detail) == FirstPreimage(prev2, detail2)
    ensures prev == prev2 && detail == detail2
  {
    var s := FirstPreimage(prev, detail);
    var t := FirstPreimage(prev2, detail2);
    PrintStarts(JObj(detail));
    PrintStarts(JObj(detail2));
    assert s[0] == prev[0] && t[0] == prev2[0];
    assert |prev| == |prev2|;
    assert prev == s[..|prev|] && prev2 == t[..|prev2|];
    assert Print(JObj(detail)) == s[|prev|..] && Print(JObj(detail2)) == t[|prev2|..];
    CanonicalTextInjective(JObj(detail), JObj(detail2));
  }

  lemma SecondPayloadWho(e: Event, f: Event)
    requires SecondPayload(e.prevHash, e) == SecondPayload(f.prevHash, f)
    ensures e.agentId == f.agentId && e.parentId == f.parentId && e.orgId == f.orgId && e.transactionId == f.transactionId
  {
    var a, b := SecondPayload(e.prevHash, e).fields, SecondPayload(f.prevHash, f).fields;
    assert a["agent_id"] == b["agent_id"];
    assert a["parent_id"] == b["parent_id"];
    assert a["org_id"] == b["org_id"];
    assert a["transaction_id"] == b["transaction_id"];
  }

  lemma SecondPayloadWhat(e: Event, f: Event)
    requires SecondPayload(e.prevHash, e) == SecondPayload(f.prevHash, f)
    ensures e.prevHash == f.prevHash && e.kind == f.kind && e.createdAt == f.createdAt && e.detail == f.detail
  {
    var a, b := SecondPayload(e.prevHash, e).fields, SecondPayload(f.prevHash, f).fields;
    assert a["prev_hash"] == b["prev_hash"];
    assert a["kind"] == b["kind"];
    assert a["created_at"] == b["created_at"];
    assert a["detail"] == b["detail"];
  }

  /** The two formats never hash the same text: one starts with a link, the other with a brace. */
  lemma FormatsApart(e: Event, f: Event)
    requires IsLink(e.prevHash) && FirstFormat(e.version) && !FirstFormat(f.version)
    ensures Preimage(e) != Preimage(f)
  {
    assert Preimage(e)[0] == e.prevHash[0];
    assert Print(SecondPayload(f.prevHash, f))[0] == '{';
  }

  lemma PreimageCommits(e: Event, f: Event)
    requires IsLink(e.prevHash) && IsLink(f.prevHash)
    ensures Preimage(e) == Preimage(f) <==> e.prevHash == f.prevHash && Committed(e) == Committed(f)
  {
    if Preimage(e) == Preimage(f) {
      if FirstFormat(e.version) && FirstFormat(f.version) {
        FirstFormatInjective(e.prevHash, e.detail, f.prevHash, f.detail);
      } else if FirstFormat(e.version) {
        FormatsApart(e, f);
      } else if FirstFormat(f.version) {
        FormatsApart(f, e);
      } else {
        CanonicalTextInjective(SecondPayload(e.prevHash, e), SecondPayload(f.prevHash, f));
        SecondPayloadWho(e, f);
        SecondPayloadWhat(e, f);
      }
    }
  }

  lemma HeadIsLink(h: Hash, chain: seq<Event>)
    requires Digests(h) && Verifies(h, chain)
    ensures IsLink(Head(chain)) && (Head(chain) == GENESIS <==> chain == [])
  {
  }

  /** Same hashes, same format and same covered fields. */
  predicate SameRow(e: Event, f: Event) {
    Committed(e) == Committed(f) && e.prevHash == f.prevHash && e.eventHash == f.eventHash
  }

  lemma LastRowsAgree(h: Hash, a: seq<Event>, b: seq<Event>)
    requires Digests(h) && Verifies(h, a) && Verifies(h, b) && Head(a) == Head(b) && NoCollision(h, a, b)
    ensures a == [] <==> b == []
    ensures a != [] ==> SameRow(a[|a| - 1], b[|b| - 1]) && Head(a[..|a| - 1]) == Head(b[..|b| - 1])
  {
    HeadIsLink(h, a);
    HeadIsLink(h, b);
    if a != [] {
      var e, f := a[|a| - 1], b[|b| - 1];
      HeadIsLink(h, a[..|a| - 1]);
      HeadIsLink(h, b[..|b| - 1]);
      assert e in a && f in b && !Collide(h, e, f);
      PreimageCommits(e, f);
    }
  }

  predicate SameHistory(a: seq<Event>, b: seq<Event>) {
    |a| == |b| && forall i :: 0 <= i < |a| ==> SameRow(a[i], b[i])
  }

  lemma SameHistoryExtends(a: seq<Event>, b: seq<Event>)
    requires a != [] && b != [] && SameHistory(a[..|a| - 1], b[..|b| - 1]) && SameRow(a[|a| - 1], b[|b| - 1])
    ensures SameHistory(a, b)
  {
    forall i | 0 <= i < |a| - 1 ensures SameRow(a[i], b[i]) {
      assert SameRow(a[..|a| - 1][i], b[..|b| - 1][i]);
    }
  }

  lemma FewerRowsFewerCollisions(h: Hash, a: seq<Event>, b: seq<Event>)
    requires a != [] && b != [] && NoCollision(h, a, b)
    ensures NoCollision(h, a[..|a| - 1], b[..|b| - 1])
  {
  }

  /** The head hash commits to the history: two chains that both verify and end in the same hash have the same
      length and, row by row, the same hashes, formats and covered fields, unless two of the texts they
      hash collide. */
  lemma {:induction false} HeadCommitsToHistory(h: Hash, a: seq<Event>, b: seq<Event>)
    requires Digests(h) && Verifies(h, a) && Verifies(h, b) && Head(a) == Head(b) && NoCollision(h, a, b)
    ensures SameHistory(a, b)
    decreases |a|
  {
    LastRowsAgree(h, a, b);
    if a != [] {
      FewerRowsFewerCollisions(h, a, b);
      HeadCommitsToHistory(h, a[..|a| - 1], b[..|b| - 1]);
      SameHistoryExtends(a, b);
    }
  }

  /** A row altered in place, keeping both its hashes, leaves the chain verifying exactly when everything its
      format covers is as it was: any covered edit, and any change of format, is caught. */
  lemma EditCaughtIff(h: Hash, chain: seq<Event>, k: nat, altered: Event)
    requires Digests(h) && Verifies(h, chain) && k < |chain|
    requires altered.prevHash == chain[k].prevHash && altered.eventHash == chain[k].eventHash && NoCollision(h, [chain[k]], [altered])
    ensures Verifies(h, chain[k := altered]) <==> Committed(altered) == Committed(chain[k])
  {
    EditOneLink(h, chain, k, altered);
    LinkAt(h, chain, k);
    assert chain[k] in [chain[k]] && altered in [altered] && !Collide(h, chain[k], altered);
    PreimageCommits(chain[k], altered);
  }

  lemma {:induction false} LinkAt(h: Hash, chain: seq<Event>, k: nat)
    requires Verifies(h, chain) && k < |chain| && Digests(h)
    ensures Links(h, Head(chain[..k]), chain[k]) && IsLink(chain[k].prevHash)
    decreases |chain|
  {
    HeadIsLink(h, chain[..|chain| - 1]);
    if k + 1 < |chain| {
      LinkAt(h, chain[..|chain| - 1], k);
      assert chain[..|chain| - 1][..k] == chain[..k];
    }
  }

  lemma {:induction false} EditOneLink(h: Hash, chain: seq<Event>, k: nat, altered: Event)
    requires Verifies(h, chain) && k < |chain|
    requires altered.prevHash == chain[k].prevHash && altered.eventHash == chain[k].eventHash
    ensures Verifies(h, chain[k := altered]) <==> altered.eventHash == h(Preimage(altered))
    ensures Head(chain[k := altered]) == Head(chain)
    decreases |chain|
  {
    var edited := chain[k := altered];
    var front := chain[..|chain| - 1];
    if k + 1 < |chain| {
      assert edited[..|edited| - 1] == front[k := altered];
      EditOneLink(h, front, k, altered);
    } else {
      assert edited[..|edited| - 1] == front;
    }
  }

  // ------------------------------------------------------------------ appending

  lemma OfAppend(table: seq<Event>, e: Event, tx: string)
    ensures Of(table + [e], tx) == Of(table, tx) + if e.transactionId == tx then [e] else []
  {
    assert (table + [e])[..|table|] == table;
  }

  lemma {:induction false} OfConcat(a: seq<Event>, b: seq<Event>, tx: string)
    ensures Of(a + b, tx) == Of(a, tx) + Of(b, tx)
  {
    if b == [] {
      assert a + b == a;
    } else {
      assert a + b == a + b[..|b| - 1] + [b[|b| - 1]];
      OfConcat(a, b[..|b| - 1], tx);
      OfAppend(a + b[..|b| - 1], b[|b| - 1], tx);
    }
  }

  /** Recording an event changes no transaction's verdict: not another's, and not its own, whether the chain
      verified before or had been tampered with. */
  lemma RecordingKeepsEveryVerdict(h: Hash, table: seq<Event>, e: Entry, tx: string)
    ensures var after := table + [Chained(h, Head(Of(table, e.transactionId)), e)];
            && Verifies(h, Of(after, tx)) == Verifies(h, Of(table, tx))
            && (tx != e.transactionId ==> Of(after, tx) == Of(table, tx))
  {
    var row := Chained(h, Head(Of(table, e.transactionId)), e);
    ChainedLinks(h, Head(Of(table, e.transactionId)), e);
    OfAppend(table, row, tx);
    if tx == e.transactionId {
      LinkingKeepsVerdict(h, Of(table, tx), row);
    } else {
      assert Of(table, tx) + [] == Of(table, tx);
    }
  }

  lemma LinkingKeepsVerdict(h: Hash, chain: seq<Event>, row: Event)
    requires Links(h, Head(chain), row)
    ensures Verifies(h, chain + [row]) == Verifies(h, chain)
  {
    assert (chain + [row])[..|chain|] == chain;
  }

  /** The text whose hash a row must carry, as somebody who only knows the format writes it: the details behind the
      previous hash, or all of the row by name. */
  lemma HashedTextIs(e: Event, f: map<string, Json>)
    requires f.Keys == {"prev_hash", "kind", "agent_id", "parent_id", "org_id", "transaction_id", "created_at", "detail"}
    requires f["prev_hash"] == JStr(e.prevHash) && f["kind"] == JStr(e.kind) && f["agent_id"] == JStr(e.agentId)
    requires f["parent_id"] == (if e.parentId.Some? then JStr(e.parentId.value) else JNull)
    requires f["org_id"] == JStr(e.orgId) && f["transaction_id"] == JStr(e.transactionId) && f["created_at"] == JStr(e.createdAt)
    requires f["detail"] == JObj(e.detail)
    ensures Preimage(e) == if e.version == 0 || e.version == 1 then e.prevHash + Print(JObj(e.detail)) else Print(JObj(f))
  {
    var g := SecondPayload(e.prevHash, e).fields;
    assert f.Keys == g.Keys;
    forall k | k in f ensures f[k] == g[k] {
    }
    assert f == g;
  }

  // ------------------------------------------------------------------ what was recorded cannot be rewritten

  function RecordAll(h: Hash, table: seq<Event>, entries: seq<Entry>): seq<Event>
    decreases |entries|
  {
    if entries == [] then table
    else RecordAll(h, table + [Chained(h, Head(Of(table, entries[0].transactionId)), entries[0])], entries[1..])
  }

  lemma {:induction false} RecordAllAppends(h: Hash, table: seq<Event>, entries: seq<Entry>, tx: string)
    ensures table <= RecordAll(h, table, entries)
    ensures Verifies(h, Of(RecordAll(h, table, entries), tx)) == Verifies(h, Of(table, tx))
    decreases |entries|
  {
    if entries != [] {
      RecordingKeepsEveryVerdict(h, table, entries[0], tx);
      RecordAllAppends(h, table + [Chained(h, Head(Of(table, entries[0].transactionId)), entries[0])], entries[1..], tx);
    }
  }

  lemma OfAround(table: seq<Event>, p: nat, row: Event, tx: string)
    requires p < |table|
    ensures Of(table[p := row], tx) == Of(table[..p], tx) + (if row.transactionId == tx then [row] else []) + Of(table[p + 1..], tx)
  {
    assert table[p := row] == table[..p] + [row] + table[p + 1..];
    OfConcat(table[..p] + [row], table[p + 1..], tx);
    OfAppend(table[..p], row, tx);
  }

  /** A row that does not carry its own hash breaks the chain of its transaction, wherever it stands. */
  lemma WrongHashBreaks(h: Hash, table: seq<Event>, p: nat, row: Event)
    requires p < |table| && row.eventHash != h(Preimage(row))
    ensures !Verifies(h, Of(table[p := row], row.transactionId))
  {
    var before, chain := Of(table[..p], row.transactionId), Of(table[p := row], row.transactionId);
    OfAround(table, p, row, row.transactionId);
    assert chain[..|before| + 1] == before + [row] && (before + [row])[..|before|] == before;
    BrokenStaysBroken(h, chain, |before| + 1);
  }

  lemma Spliced<T>(a: seq<T>, x: T, y: T, b: seq<T>)
    ensures (a + [x] + b)[|a| := y] == a + [y] + b && (a + [x] + b)[|a|] == x
  {
  }

  /** Editing a row within its transaction edits one place of that transaction's chain. */
  lemma OfEdited(table: seq<Event>, p: nat, row: Event) returns (k: nat)
    requires p < |table| && row.transactionId == table[p].transactionId
    ensures k < |Of(table, row.transactionId)| && Of(table, row.transactionId)[k] == table[p]
    ensures Of(table[p := row], row.transactionId) == Of(table, row.transactionId)[k := row]
  {
    var tx := row.transactionId;
    var before, after := Of(table[..p], tx), Of(table[p + 1..], tx);
    k := |before|;
    OfAround(table, p, row, tx);
    OfAround(table, p, table[p], tx);
    assert table[p := table[p]] == table;
    Spliced(before, table[p], row, after);
  }

  lemma RightHashHolds(h: Hash, table: seq<Event>, p: nat, row: Event)
    requires p < |table| && row.eventHash == h(Preimage(row)) && Verifies(h, Of(table, row.transactionId))
    requires row.transactionId == table[p].transactionId && row.prevHash == table[p].prevHash && row.eventHash == table[p].eventHash
    ensures Verifies(h, Of(table[p := row], row.transactionId))
  {
    var k := OfEdited(table, p, row);
    EditOneLink(h, Of(table, row.transactionId), k, row);
  }

  /** The row, but for its hashes, still says what was recorded, in a format that covers all of it. */
  predicate StillSays(row: Event, e: Entry) {
    && row.transactionId == e.transactionId && row.agentId == e.agentId && row.parentId == e.parentId && row.orgId == e.orgId
    && row.kind == e.kind && row.detail == e.detail && row.createdAt == e.createdAt && row.version != 0 && row.version != 1
  }

  /** Record anything, then anything more, then edit the first row in place and keep its hashes: the chain of the
      transaction the row now names verifies exactly when the row still says what was recorded, if the transaction's
      chain verified to begin with. */
  lemma RecordedEditCaughtIff(h: Hash, table: seq<Event>, e: Entry, more: seq<Entry>, altered: Event)
    requires Digests(h) && Verifies(h, Of(table, e.transactionId))
    requires var row := Chained(h, Head(Of(table, e.transactionId)), e);
             altered.prevHash == row.prevHash && altered.eventHash == row.eventHash && !Collide(h, row, altered)
    ensures var rows := RecordAll(h, table, [e] + more);
            && |rows| > |table| && Keeps(rows[|table|], e)
            && (Verifies(h, Of(rows[|table| := altered], altered.transactionId)) <==> StillSays(altered, e))
  {
    var row := Chained(h, Head(Of(table, e.transactionId)), e);
    var rows := RecordAll(h, table, [e] + more);
    assert ([e] + more)[1..] == more;
    assert rows == RecordAll(h, table + [row], more);
    RecordAllAppends(h, table + [row], more, e.transactionId);
    RecordingKeepsEveryVerdict(h, table, e, e.transactionId);
    assert rows[|table|] == (table + [row])[|table|];
    ChainedLinks(h, Head(Of(table, e.transactionId)), e);
    HeadIsLink(h, Of(table, e.transactionId));
    PreimageCommits(row, altered);
    if StillSays(altered, e) {
      RightHashHolds(h, rows, |table|, altered);
    } else {
      WrongHashBreaks(h, rows, |table|, altered);
    }
  }

  // ------------------------------------------------------------------ concurrent sessions

  /** Committed rows, and for every open session the rows it has flushed. The lock of a transaction is `key(tx)`,
      held to the end of the session; keys may coincide. */
  datatype Log = Log(table: seq<Event>, pending: map<Pid, seq<Event>>, locks: map<int, Pid>)

  datatype Step =
    | Record(pid: Pid, e: Entry)
    | Commit(pid: Pid)
    | Rollback(pid: Pid)

  function Flushed(l: Log, pid: Pid): seq<Event> {
    if pid in l.pending then l.pending[pid] else []
  }

  predicate Enabled(key: string -> int, l: Log, st: Step) {
    match st
    case Record(pid, e) => Free(l.locks, key(e.transactionId), pid)
    case Commit(pid) => pid in l.pending
    case Rollback(pid) => pid in l.pending
  }

  /** A session sees the committed rows and its own. */
  function Apply(key: string -> int, h: Hash, l: Log, st: Step): Log
    requires Enabled(key, l, st)
  {
    match st
    case Record(pid, e) =>
      var mine := Flushed(l, pid);
      var row := Chained(h, Head(Of(l.table + mine, e.transactionId)), e);
      Log(l.table, l.pending[pid := mine + [row]], l.locks[key(e.transactionId) := pid])
    case Commit(pid) => Log(l.table + l.pending[pid], l.pending - {pid}, Without(l.locks, pid))
    case Rollback(pid) => Log(l.table, l.pending - {pid}, Without(l.locks, pid))
  }

  ghost function Stepper(key: string -> int, h: Hash): (Log, Step) -> Option<Log> {
    (l: Log, st: Step) => if Enabled(key, l, st) then Some(Apply(key, h, l, st)) else None
  }

  /** A session with rows for a transaction holds its lock. */
  ghost predicate HoldsWhatItWrote(key: string -> int, l: Log) {
    forall pid, e | pid in l.pending && e in l.pending[pid] :: key(e.transactionId) in l.locks && l.locks[key(e.transactionId)] == pid
  }

  /** What is committed verifies, and would with any one session's rows committed. */
  ghost predicate AllVerify(h: Hash, l: Log) {
    && (forall tx {:trigger Of(l.table, tx)} :: Verifies(h, Of(l.table, tx)))
    && (forall pid, tx {:trigger Of(l.table + l.pending[pid], tx)} | pid in l.pending :: Verifies(h, Of(l.table + l.pending[pid], tx)))
  }

  ghost predicate Inv(key: string -> int, h: Hash, l: Log) {
    HoldsWhatItWrote(key, l) && AllVerify(h, l)
  }

  lemma {:induction false} NoneOf(rows: seq<Event>, tx: string)
    requires forall e :: e in rows ==> e.transactionId != tx
    ensures Of(rows, tx) == []
  {
    if rows != [] {
      assert rows[|rows| - 1] in rows;
      NoneOf(rows[..|rows| - 1], tx);
    }
  }

  lemma RecordKeepsInv(key: string -> int, h: Hash, l: Log, pid: Pid, e: Entry)
    requires Inv(key, h, l) && Enabled(key, l, Record(pid, e))
    ensures Inv(key, h, Apply(key, h, l, Record(pid, e)))
  {
    var after := Apply(key, h, l, Record(pid, e));
    var mine := Flushed(l, pid);
    var seen := l.table + mine;
    var row := Chained(h, Head(Of(seen, e.transactionId)), e);
    ChainedLinks(h, Head(Of(seen, e.transactionId)), e);
    forall tx ensures Verifies(h, Of(after.table + after.pending[pid], tx)) {
      assert after.table + after.pending[pid] == seen + [row];
      assert mine == [] ==> seen == l.table;
      assert Verifies(h, Of(seen, tx));
      RecordingKeepsEveryVerdict(h, seen, e, tx);
    }
  }

  /** Rows without the transaction change nothing of its chain. */
  lemma OthersInvisible(table: seq<Event>, a: seq<Event>, b: seq<Event>, tx: string)
    ensures (forall e :: e in a ==> e.transactionId != tx) ==> Of(table + a + b, tx) == Of(table + b, tx)
    ensures (forall e :: e in b ==> e.transactionId != tx) ==> Of(table + a + b, tx) == Of(table + a, tx)
  {
    OfConcat(table + a, b, tx);
    OfConcat(table, a, tx);
    OfConcat(table, b, tx);
    if forall e :: e in a ==> e.transactionId != tx { NoneOf(a, tx); }
    if forall e :: e in b ==> e.transactionId != tx { NoneOf(b, tx); }
  }

  /** Two sessions never both have rows for one transaction. */
  lemma CommitKeepsOther(key: string -> int, h: Hash, l: Log, pid: Pid, other: Pid, tx: string)
    requires Inv(key, h, l) && pid in l.pending && other in l.pending && pid != other
    ensures Verifies(h, Of(l.table + l.pending[pid] + l.pending[other], tx))
  {
    assert Verifies(h, Of(l.table + l.pending[pid], tx)) && Verifies(h, Of(l.table + l.pending[other], tx));
    OthersInvisible(l.table, l.pending[pid], l.pending[other], tx);
  }

  lemma StepKeepsInv(key: string -> int, h: Hash, l: Log, st: Step)
    requires Inv(key, h, l) && Enabled(key, l, st)
    ensures Inv(key, h, Apply(key, h, l, st))
  {
    match st {
      case Record(pid, e) => RecordKeepsInv(key, h, l, pid, e);
      case Commit(pid) =>
        var after := Apply(key, h, l, st);
        forall other, tx | other in after.pending ensures Verifies(h, Of(after.table + after.pending[other], tx)) {
          CommitKeepsOther(key, h, l, pid, other, tx);
        }
      case Rollback(pid) =>
    }
  }

  /** Chains never fork. However sessions recording for any number of transactions interleave, commit and roll
      back, every transaction's committed chain verifies at every moment, even if lock keys coincide. */
  lemma ChainsNeverFork(key: string -> int, h: Hash, steps: seq<Step>, tx: string)
    requires Play(Stepper(key, h), Log([], map[], map[]), steps).Some?
    ensures Verifies(h, Of(Play(Stepper(key, h), Log([], map[], map[]), steps).value.table, tx))
  {
    var step := Stepper(key, h);
    forall l, st | Inv(key, h, l) && st in steps && step(l, st).Some? ensures Inv(key, h, step(l, st).value) {
      StepKeepsInv(key, h, l, st);
    }
    assert Inv(key, h, Log([], map[], map[]));
    PlayKeeps(step, (l: Log) => Inv(key, h, l), Log([], map[], map[]), steps);
  }

  /** What the lock prevents: two events chained to the same head verify together only if the first hashed back
      to that very head, and once they do not, nothing recorded later makes the chain verify again. */
  lemma ForkVerifiesIff(h: Hash, chain: seq<Event>, e: Entry, f: Entry, more: seq<Event>)
    requires Verifies(h, chain)
    ensures var first, second := Chained(h, Head(chain), e), Chained(h, Head(chain), f);
            && (Verifies(h, chain + [first] + [second]) <==> first.eventHash == Head(chain))
            && (first.eventHash != Head(chain) ==> !Verifies(h, chain + [first] + [second] + more))
  {
    var first, second := Chained(h, Head(chain), e), Chained(h, Head(chain), f);
    ChainedLinks(h, Head(chain), e);
    ChainedLinks(h, Head(chain), f);
    var forked := chain + [first] + [second];
    assert forked[..|forked| - 1] == chain + [first] && (chain + [first])[..|chain|] == chain;
    if first.eventHash != Head(chain) {
      assert (forked + more)[..|forked|] == forked;
      BrokenStaysBroken(h, forked + more, |forked|);
    }
  }

  // ------------------------------------------------------------------ one writer instead of the lock

  /** What a session inside `record_audit` holds: the entry, the head it read, and whether it read that before it was
      the writer. */
  datatype Tail = Tail(e: Entry, head: string, early: bool)

  /** SQLite, where the chain lock does nothing: one session at a time may write, from its first write to its commit.
      Some handlers have written before they record an event, others record one first. */
  datatype Lite = Lite(table: seq<Event>, flushed: seq<Event>, writer: Option<Pid>, peeked: map<Pid, Tail>)

  datatype LiteStep =
    | Begin(pid: Pid)
    | Peek(pid: Pid, e: Entry)
    | Put(pid: Pid)
    | End(pid: Pid, commit: bool)

  function Visible(l: Lite, pid: Pid): seq<Event> {
    if l.writer == Some(pid) then l.table + l.flushed else l.table
  }

  /** `early`: the sessions that may read a tail before they are the writer. */
  function LiteNext(h: Hash, early: Pid -> bool, l: Lite, st: LiteStep): Option<Lite> {
    match st
    case Begin(pid) => if l.writer.None? then Some(l.(writer := Some(pid))) else None
    case Peek(pid, e) =>
      if l.writer != Some(pid) && !early(pid) then None
      else Some(l.(peeked := l.peeked[pid := Tail(e, Head(Of(Visible(l, pid), e.transactionId)), l.writer != Some(pid))]))
    case Put(pid) =>
      if pid !in l.peeked || (l.writer.Some? && l.writer != Some(pid)) then None
      else
        var mine := if l.writer.Some? then l.flushed else [];
        Some(Lite(l.table, mine + [Chained(h, l.peeked[pid].head, l.peeked[pid].e)], Some(pid), l.peeked - {pid}))
    case End(pid, commit) =>
      if l.writer != Some(pid) || pid in l.peeked then None
      else Some(Lite(if commit then l.table + l.flushed else l.table, [], None, l.peeked))
  }

  ghost function LiteStepper(h: Hash, early: Pid -> bool): (Lite, LiteStep) -> Option<Lite> {
    (l: Lite, st: LiteStep) => LiteNext(h, early, l, st)
  }

  function Empty(): Lite {
    Lite([], [], None, map[])
  }

  ghost predicate AllChainsVerify(h: Hash, table: seq<Event>) {
    forall tx :: Verifies(h, Of(table, tx))
  }

  /** Every chain verifies, and would with the writer's rows committed. */
  ghost predicate Unforked(h: Hash, l: Lite) {
    AllChainsVerify(h, l.table) && AllChainsVerify(h, l.table + l.flushed)
  }

  predicate Newest(seen: seq<Event>, t: Tail) {
    t.head == Head(Of(seen, t.e.transactionId))
  }

  /** A tail read by the writer is in the writer's hand and is the newest row it can see. */
  predicate Timely(l: Lite, pid: Pid, t: Tail) {
    !t.early ==> l.writer == Some(pid) && Newest(l.table + l.flushed, t)
  }

  ghost predicate LiteInv(l: Lite) {
    (l.writer.None? ==> l.flushed == []) && forall pid | pid in l.peeked :: Timely(l, pid, l.peeked[pid])
  }

  lemma LiteStepKeepsInv(h: Hash, early: Pid -> bool, l: Lite, st: LiteStep)
    requires LiteInv(l) && LiteNext(h, early, l, st).Some?
    ensures LiteInv(LiteNext(h, early, l, st).value)
  {
    var after := LiteNext(h, early, l, st).value;
    forall pid | pid in after.peeked ensures Timely(after, pid, after.peeked[pid]) {
      assert pid in l.peeked ==> Timely(l, pid, l.peeked[pid]);
    }
  }

  lemma PutLinksIff(h: Hash, seen: seq<Event>, t: Tail)
    requires AllChainsVerify(h, seen)
    ensures AllChainsVerify(h, seen + [Chained(h, t.head, t.e)]) <==> Newest(seen, t)
  {
    var row, mine := Chained(h, t.head, t.e), t.e.transactionId;
    ChainedLinks(h, t.head, t.e);
    forall tx ensures Verifies(h, Of(seen + [row], tx)) <==> tx != mine || Newest(seen, t) {
      assert Verifies(h, Of(seen, tx));
      OfAppend(seen, row, tx);
      if tx == mine {
        assert (Of(seen, tx) + [row])[..|Of(seen, tx)|] == Of(seen, tx);
      } else {
        assert Of(seen, tx) + [] == Of(seen, tx);
      }
    }
    assert Verifies(h, Of(seen + [row], mine)) <==> Newest(seen, t);
  }

  ghost predicate StaysUnforked(h: Hash, early: Pid -> bool, l: Lite, st: LiteStep) {
    LiteNext(h, early, l, st).Some? ==> Unforked(h, LiteNext(h, early, l, st).value)
  }

  /** A tail read before its session was the writer is still the newest when it is written. */
  predicate EarlyStillNewest(l: Lite, st: LiteStep) {
    st.Put? && st.pid in l.peeked && l.peeked[st.pid].early && (l.writer.None? || l.writer == Some(st.pid))
    ==> Newest(Visible(l, st.pid), l.peeked[st.pid])
  }

  lemma StaysUnforkedIff(h: Hash, early: Pid -> bool, l: Lite, st: LiteStep)
    requires LiteInv(l) && Unforked(h, l)
    ensures StaysUnforked(h, early, l, st) <==> EarlyStillNewest(l, st)
  {
    if LiteNext(h, early, l, st).Some? {
      var after := LiteNext(h, early, l, st).value;
      match st {
        case Put(pid) =>
          var seen := Visible(l, pid);
          assert l.table + [] == l.table;
          assert after.table + after.flushed == seen + [Chained(h, l.peeked[pid].head, l.peeked[pid].e)];
          assert Timely(l, pid, l.peeked[pid]);
          PutLinksIff(h, seen, l.peeked[pid]);
        case End(pid, commit) =>
          assert l.table + [] == l.table && l.table + l.flushed + [] == l.table + l.flushed;
        case _ => assert l.table + [] == l.table;
      }
    }
  }

  lemma {:induction false} UnforkedIffFrom(h: Hash, early: Pid -> bool, l: Lite, steps: seq<LiteStep>)
    requires LiteInv(l) && Unforked(h, l)
    ensures Along(LiteStepper(h, early), (x: Lite, st: LiteStep) => StaysUnforked(h, early, x, st), l, steps)
            <==> Along(LiteStepper(h, early), EarlyStillNewest, l, steps)
    decreases |steps|
  {
    if steps != [] {
      StaysUnforkedIff(h, early, l, steps[0]);
      if LiteNext(h, early, l, steps[0]).Some? && EarlyStillNewest(l, steps[0]) {
        LiteStepKeepsInv(h, early, l, steps[0]);
        UnforkedIffFrom(h, early, LiteNext(h, early, l, steps[0]).value, steps[1..]);
      }
    }
  }

  /** With one writer at a time and no lock, every chain verifies at every moment of a run if and only if every session
      that read its tail before it was the writer still holds the newest row of the transaction when it writes. Sessions
      that were the writer when they read never fork a chain. */
  lemma UnforkedIffEarlyStillNewest(h: Hash, early: Pid -> bool, steps: seq<LiteStep>)
    ensures Along(LiteStepper(h, early), (x: Lite, st: LiteStep) => StaysUnforked(h, early, x, st), Empty(), steps)
            <==> Along(LiteStepper(h, early), EarlyStillNewest, Empty(), steps)
  {
    assert Unforked(h, Empty()) by { assert [] + [] == Empty().table; }
    UnforkedIffFrom(h, early, Empty(), steps);
  }

  // ------------------------------------------------------------------ one early reader is enough

  function SampleEntry(): Entry {
    Entry("tx", "agent", None, "default", "kind", map[], "now")
  }

  /** Session `e` reads the tail, another one records and commits, and then `e` writes. */
  function ForkingRun(e: Pid): seq<LiteStep> {
    [Peek(e, SampleEntry()), Begin(e + 1), Peek(e + 1, SampleEntry()), Put(e + 1), End(e + 1, true), Put(e), End(e, true)]
  }

  function ForkingStates(e: Pid, row: Event): seq<Lite> {
    var t := Tail(SampleEntry(), GENESIS, true);
    var u := t.(early := false);
    [Empty(), Lite([], [], None, map[e := t]), Lite([], [], Some(e + 1), map[e := t]), Lite([], [], Some(e + 1), map[e := t, e + 1 := u]),
     Lite([], [row], Some(e + 1), map[e := t]), Lite([row], [], None, map[e := t]), Lite([row], [row], Some(e), map[]),
     Lite([row] + [row], [], None, map[])]
  }

  lemma ForkingPuts(h: Hash, early: Pid -> bool, e: Pid, row: Event)
    requires early(e) && row == Chained(h, GENESIS, SampleEntry())
    ensures Leads(LiteStepper(h, early), ForkingStates(e, row), ForkingRun(e), 3) && Leads(LiteStepper(h, early), ForkingStates(e, row), ForkingRun(e), 5)
  {
    var s := ForkingStates(e, row);
    assert s[3].peeked - {e + 1} == s[4].peeked && s[5].peeked - {e} == map[];
    assert [] + [row] == [row];
  }

  lemma ForkingLeads(h: Hash, early: Pid -> bool, e: Pid, row: Event, i: nat)
    requires early(e) && i < 7 && i != 3 && i != 5
    ensures Leads(LiteStepper(h, early), ForkingStates(e, row), ForkingRun(e), i)
  {
    assert [] + [row] == [row];
  }

  lemma ForkingRunForks(h: Hash, early: Pid -> bool, e: Pid)
    requires early(e)
    ensures var row := Chained(h, GENESIS, SampleEntry());
            Play(LiteStepper(h, early), Empty(), ForkingRun(e)) == Some(Lite([row] + [row], [], None, map[]))
  {
    var row := Chained(h, GENESIS, SampleEntry());
    ForkingPuts(h, early, e, row);
    forall i | 0 <= i < 7 ensures Leads(LiteStepper(h, early), ForkingStates(e, row), ForkingRun(e), i) {
      if i != 3 && i != 5 { ForkingLeads(h, early, e, row, i); }
    }
    PlayThrough(LiteStepper(h, early), ForkingStates(e, row), ForkingRun(e));
  }

  lemma TwinsDoNotVerify(h: Hash)
    requires Digests(h)
    ensures var row := Chained(h, GENESIS, SampleEntry()); !Verifies(h, Of([row] + [row], "tx"))
  {
    var row := Chained(h, GENESIS, SampleEntry());
    OfAppend([], row, "tx");
    assert [] + [row] == [row];
    OfAppend([row], row, "tx");
    ForkVerifiesIff(h, [], SampleEntry(), SampleEntry(), []);
    ChainedLinks(h, GENESIS, SampleEntry());
    assert IsDigest(h(Preimage(row)));
    assert !IsDigest(GENESIS);
  }

  ghost predicate NoneEarly(h: Hash, l: Lite) {
    LiteInv(l) && Unforked(h, l) && forall pid | pid in l.peeked :: !l.peeked[pid].early
  }

  lemma StepKeepsNoneEarly(h: Hash, early: Pid -> bool, l: Lite, st: LiteStep)
    requires (forall pid :: !early(pid)) && NoneEarly(h, l) && LiteNext(h, early, l, st).Some?
    ensures NoneEarly(h, LiteNext(h, early, l, st).value)
  {
    LiteStepKeepsInv(h, early, l, st);
    StaysUnforkedIff(h, early, l, st);
  }

  lemma NobodyEarly(h: Hash, early: Pid -> bool, steps: seq<LiteStep>)
    requires (forall pid :: !early(pid)) && Play(LiteStepper(h, early), Empty(), steps).Some?
    ensures AllChainsVerify(h, Play(LiteStepper(h, early), Empty(), steps).value.table)
  {
    var step := LiteStepper(h, early);
    forall l, st | NoneEarly(h, l) && st in steps && step(l, st).Some? ensures NoneEarly(h, step(l, st).value) {
      StepKeepsNoneEarly(h, early, l, st);
    }
    assert Unforked(h, Empty()) by { assert [] + [] == Empty().table; }
    PlayKeeps(step, (l: Lite) => NoneEarly(h, l), Empty(), steps);
  }

  /** Which handlers must have written before they record: all of them. Every run leaves every chain verifying if and
      only if no session may read a tail before it is the writer; one that may is enough. */
  lemma NeverForksIffNobodyEarly(h: Hash, early: Pid -> bool)
    requires Digests(h)
    ensures (forall steps {:trigger Play(LiteStepper(h, early), Empty(), steps)} ::
               Play(LiteStepper(h, early), Empty(), steps).Some?
               ==> AllChainsVerify(h, Play(LiteStepper(h, early), Empty(), steps).value.table))
            <==> forall pid :: !early(pid)
  {
    if pid :| early(pid) {
      ForkingRunForks(h, early, pid);
      TwinsDoNotVerify(h);
    } else {
      forall steps | Play(LiteStepper(h, early), Empty(), steps).Some?
        ensures AllChainsVerify(h, Play(LiteStepper(h, early), Empty(), steps).value.table)
      {
        NobodyEarly(h, early, steps);
      }
    }
  }
}
