/** Replaying a chat history into the store of raw messages, leaving out what is already there. */
module Replay {
  import opened Text

  datatype Role = User | Assistant
  datatype Message = Message(role: Role, time: int, content: string)
  datatype Group = Pair(user: Message, assistant: Message) | Single(message: Message)

  const MAX_CONTENT := 8000
  const PREFIX_LEN := 96

  // ---- pairing ------------------------------------------------------------------------------------

  function Flatten(groups: seq<Group>): seq<Message> {
    if groups == [] then []
    else
      var g := groups[0];
      (if g.Pair? then [g.user, g.assistant] else [g.message]) + Flatten(groups[1..])
  }

  predicate Exchange(msgs: seq<Message>, i: int) {
    0 <= i && i + 1 < |msgs| && msgs[i].role == User && msgs[i + 1].role == Assistant
  }

  /** Cut from the left: an exchange is one group, any other message a group of its own. */
  function Paired(msgs: seq<Message>): seq<Group> {
    if msgs == [] then []
    else if Exchange(msgs, 0) then [Pair(msgs[0], msgs[1])] + Paired(msgs[2..])
    else [Single(msgs[0])] + Paired(msgs[1..])
  }

  datatype Held = Nobody | Held(message: Message)

  /** Hold each user message until it is known what follows it. */
  method PairTurns(msgs: seq<Message>) returns (out: seq<Group>)
    ensures out == Paired(msgs)
  {
    hide Paired;
    out := [];
    var pending := Nobody;
    StartPairing(msgs);
    for i := 0 to |msgs|
      invariant pending.Held? ==> i > 0 && pending.message == msgs[i - 1] && pending.message.role == User
      invariant Paired(msgs) == out + Paired(msgs[if pending.Held? then i - 1 else i..])
    {
      var m := msgs[i];
      if m.role == User {
        if pending.Held? {
          PairedStep(msgs, i - 1);
          Emit(out, Single(pending.message), Paired(msgs[i..]));
          out := out + [Single(pending.message)];
        }
        pending := Held(m);
      } else {
        if pending.Held? {
          PairedStep(msgs, i - 1);
          Emit(out, Pair(pending.message, m), Paired(msgs[i + 1..]));
          out := out + [Pair(pending.message, m)];
          pending := Nobody;
        } else {
          PairedStep(msgs, i);
          Emit(out, Single(m), Paired(msgs[i + 1..]));
          out := out + [Single(m)];
        }
      }
    }
    StopPairing(msgs);
    if pending.Held? {
      PairedStep(msgs, |msgs| - 1);
      Emit(out, Single(pending.message), []);
      out := out + [Single(pending.message)];
    }
    assert out + [] == out;
  }

  lemma StartPairing(msgs: seq<Message>)
    ensures Paired(msgs) == [] + Paired(msgs[0..])
  {
    assert msgs[0..] == msgs;
  }

  lemma StopPairing(msgs: seq<Message>)
    ensures Paired(msgs[|msgs|..]) == []
  {
  }

  lemma Emit<T>(out: seq<T>, x: T, rest: seq<T>)
    ensures out + ([x] + rest) == (out + [x]) + rest
  {
  }

  lemma PairedStep(msgs: seq<Message>, i: nat)
    requires i < |msgs|
    ensures Paired(msgs[i..]) == if Exchange(msgs, i) then [Pair(msgs[i], msgs[i + 1])] + Paired(msgs[i + 2..])
                                 else [Single(msgs[i])] + Paired(msgs[i + 1..])
  {
    assert Exchange(msgs, i) <==> Exchange(msgs[i..], 0);
    assert msgs[i..][1..] == msgs[i + 1..];
    if Exchange(msgs, i) {
      assert msgs[i..][2..] == msgs[i + 2..];
    }
  }

  /** Pairing loses, adds and moves nothing. */
  lemma {:induction false} PairingFlattens(msgs: seq<Message>)
    ensures Flatten(Paired(msgs)) == msgs
    decreases |msgs|
  {
    if msgs != [] {
      if Exchange(msgs, 0) {
        PairingFlattens(msgs[2..]);
        assert msgs == [msgs[0], msgs[1]] + msgs[2..];
      } else {
        PairingFlattens(msgs[1..]);
        assert msgs == [msgs[0]] + msgs[1..];
      }
    }
  }

  /** Some pair begins at the i-th message. */
  predicate PairAt(groups: seq<Group>, i: int) {
    groups != [] && if i == 0 then groups[0].Pair? else PairAt(groups[1..], i - (if groups[0].Pair? then 2 else 1))
  }

  /** The pairs are exactly the places where a user message is followed by an assistant's. */
  lemma {:induction false} PairsAreTheExchanges(msgs: seq<Message>, i: int)
    ensures PairAt(Paired(msgs), i) <==> Exchange(msgs, i)
    decreases |msgs|
  {
    if msgs != [] {
      if Exchange(msgs, 0) {
        PairsAreTheExchanges(msgs[2..], i - 2);
        assert Paired(msgs)[1..] == Paired(msgs[2..]);
        assert i > 1 ==> (Exchange(msgs, i) <==> Exchange(msgs[2..], i - 2));
      } else {
        PairsAreTheExchanges(msgs[1..], i - 1);
        assert Paired(msgs)[1..] == Paired(msgs[1..]);
        assert i > 0 ==> (Exchange(msgs, i) <==> Exchange(msgs[1..], i - 1));
      }
    }
  }

  // ---- the key of a message ---------------------------------------------------------------------------

  /** Each run of white space becomes one blank. */
  function Collapse(s: string): string {
    if s == "" then ""
    else
      var n := |s| - 1;
      if !IsSpace(s[n]) then Collapse(s[..n]) + [s[n]]
      else if n > 0 && IsSpace(s[n - 1]) then Collapse(s[..n])
      else Collapse(s[..n]) + " "
  }

  function Normal(s: string): string {
    Strip(Collapse(s))
  }

  function Take(s: string, n: nat): string {
    if |s| <= n then s else s[..n]
  }

  function Norm(s: string): string {
    Take(Normal(s), PREFIX_LEN)
  }

  /** The words so far, one blank between them, and whether white space has followed the last one. */
  datatype Words = Words(text: string, gap: bool)

  function ScanStep(w: Words, c: char): Words {
    if IsSpace(c) then Words(w.text, true)
    else if w.gap && w.text != "" then Words(w.text + " " + [c], false)
    else Words(w.text + [c], false)
  }

  function Scan(s: string): Words {
    if s == "" then Words("", false) else ScanStep(Scan(s[..|s| - 1]), s[|s| - 1])
  }

  lemma {:induction false} ScanFacts(s: string)
    ensures Scan(s).text == "" <==> AllSpace(s)
    ensures Scan(s).text != "" ==> !IsSpace(Scan(s).text[0]) && !IsSpace(Scan(s).text[|Scan(s).text| - 1])
    ensures s != "" ==> (Scan(s).gap <==> IsSpace(s[|s| - 1]))
  {
    if s != "" {
      var n := |s| - 1;
      ScanFacts(s[..n]);
      assert AllSpace(s) <==> AllSpace(s[..n]) && IsSpace(s[n]);
    }
  }

  function Lead(s: string): string {
    if s != "" && IsSpace(s[0]) then " " else ""
  }

  /** The collapsed text: a blank for leading white space, the words, and a blank for trailing white space. */
  function Spread(lead: string, w: Words): string {
    lead + w.text + (if w.gap && w.text != "" then " " else "")
  }

  lemma SpreadWord(lead: string, w: Words, c: char)
    requires !IsSpace(c)
    ensures Spread(lead, w) + [c] == Spread(lead, ScanStep(w, c))
  {
    if w.gap && w.text != "" {
      assert lead + w.text + " " + [c] == lead + (w.text + " " + [c]) + "";
    } else {
      assert lead + w.text + "" + [c] == lead + (w.text + [c]) + "";
    }
  }

  lemma SpreadGap(lead: string, w: Words)
    ensures w.text == "" || w.gap ==> Spread(lead, w) == Spread(lead, Words(w.text, true))
    ensures w.text != "" && !w.gap ==> Spread(lead, w) + " " == Spread(lead, Words(w.text, true))
  {
    assert lead + w.text + "" + " " == lead + w.text + " ";
  }

  lemma {:induction false} CollapseIsWords(s: string)
    ensures Collapse(s) == Spread(Lead(s), Scan(s))
  {
    hide Spread, ScanStep;
    if s == "" {
      SpreadNothing();
    } else if |s| == 1 {
      SpreadOne(s[0]);
      assert s == [s[0]];
    } else {
      var n := |s| - 1;
      CollapseIsWords(s[..n]);
      ScanFacts(s[..n]);
      assert Lead(s) == Lead(s[..n]);
      if IsSpace(s[n]) {
        SpreadGap(Lead(s), Scan(s[..n]));
        SpaceStep(Scan(s[..n]), s[n]);
      } else {
        SpreadWord(Lead(s), Scan(s[..n]), s[n]);
      }
    }
  }

  lemma SpaceStep(w: Words, c: char)
    requires IsSpace(c)
    ensures ScanStep(w, c) == Words(w.text, true)
  {
  }

  lemma SpreadNothing()
    ensures Collapse("") == Spread(Lead(""), Scan(""))
  {
  }

  lemma SpreadOne(c: char)
    ensures Collapse([c]) == Spread(Lead([c]), Scan([c]))
  {
    assert [c][..0] == "";
  }

  /** The key is made of the words alone. */
  lemma NormalIsWords(s: string)
    ensures Normal(s) == Scan(s).text
  {
    hide Strip, Collapse, Scan, IsSpace;
    var w := Scan(s);
    CollapseIsWords(s);
    ScanFacts(s);
    var tail := if w.gap && w.text != "" then " " else "";
    BlankIsSpace();
    StripIgnoresPadding(Lead(s), w.text, tail);
    StripTrimmed(w.text);
  }

  lemma BlankIsSpace()
    ensures IsSpace(' ')
  {
  }

  lemma {:induction false} ScanGrows(s: string, tail: string)
    ensures Scan(s).text <= Scan(s + tail).text
    ensures Scan(s).text == Scan(s + tail).text <==> AllSpace(tail)
  {
    if tail == "" {
      assert s + tail == s;
    } else {
      var n := |tail| - 1;
      ScanGrows(s, tail[..n]);
      assert (s + tail)[..|s + tail| - 1] == s + tail[..n];
      assert AllSpace(tail) <==> AllSpace(tail[..n]) && IsSpace(tail[n]);
    }
  }

  function Cut(s: string): string {
    Take(s, MAX_CONTENT)
  }

  /** Cutting a message to the store's length keeps its key if and only if its words already fill the key, or only
      white space is cut off. */
  lemma CutKeepsTheKey(s: string)
    ensures Norm(Cut(s)) == Norm(s) <==> |Normal(Cut(s))| >= PREFIX_LEN || (|s| > MAX_CONTENT ==> AllSpace(s[MAX_CONTENT..]))
  {
    hide Normal, Scan, AllSpace;
    if |s| > MAX_CONTENT {
      var tail := s[MAX_CONTENT..];
      assert s == Cut(s) + tail;
      NormalIsWords(s);
      NormalIsWords(Cut(s));
      ScanGrows(Cut(s), tail);
      TakeOfPrefix(Normal(Cut(s)), Normal(s), PREFIX_LEN);
    }
  }

  lemma TakeOfPrefix(a: string, b: string, n: nat)
    requires a <= b
    ensures Take(a, n) == Take(b, n) <==> |a| >= n || a == b
  {
    if |a| < n && a != b {
      assert |Take(b, n)| > |a|;
    }
  }

  // ---- replaying --------------------------------------------------------------------------------------

  datatype Key = Key(role: Role, norm: string)
  datatype Row = Row(role: Role, text: string)

  function KeyOf(m: Message): Key {
    Key(m.role, Norm(m.content))
  }

  function Seen(store: seq<Row>): set<Key> {
    set r | r in store :: Key(r.role, Norm(r.text))
  }

  function Unseen(msgs: seq<Message>, seen: set<Key>): seq<Message> {
    if msgs == [] then []
    else (if KeyOf(msgs[0]) in seen then [] else [msgs[0]]) + Unseen(msgs[1..], seen)
  }

  function Members(g: Group): seq<Message> {
    if g.Pair? then [g.user, g.assistant] else [g.message]
  }

  /** The batches: what is unseen of each group, when anything is. */
  function Batches(groups: seq<Group>, seen: set<Key>): seq<seq<Message>> {
    if groups == [] then []
    else
      var batch := Unseen(Members(groups[0]), seen);
      (if batch == [] then [] else [batch]) + Batches(groups[1..], seen)
  }

  function Concat(batches: seq<seq<Message>>): seq<Message> {
    if batches == [] then [] else batches[0] + Concat(batches[1..])
  }

  function Rows(msgs: seq<Message>): seq<Row> {
    seq(|msgs|, i requires 0 <= i < |msgs| => Row(msgs[i].role, Cut(msgs[i].content)))
  }

  /** Which calls the gateway accepts. */
  type Gateway = nat -> bool

  /** How many batches are sent before the gateway refuses one, which ends the run. */
  function Accepted(batches: nat, g: Gateway, from: nat): (n: nat)
    ensures n <= batches
    decreases batches
  {
    if batches == 0 || !g(from) then 0 else 1 + Accepted(batches - 1, g, from + 1)
  }

  function SentBy(msgs: seq<Message>, store: seq<Row>, g: Gateway): seq<Message> {
    var batches := Batches(Paired(msgs), Seen(store));
    Concat(batches[..Accepted(|batches|, g, 0)])
  }

  class Replayer {
    var store: seq<Row>

    constructor (store: seq<Row>)
      ensures this.store == store
    {
      this.store := store;
    }

    /** Pair, filter against what was in the store at the start, send batch by batch. */
    method Run(msgs: seq<Message>, g: Gateway) returns (complete: bool)
      modifies this
      ensures store == old(store) + Rows(SentBy(msgs, old(store), g))
      ensures var n := |Batches(Paired(msgs), Seen(old(store)))|; complete <==> Accepted(n, g, 0) == n
    {
      hide Unseen, Paired, Norm, Rows, Accepted, Batches, Concat;
      var seen := Seen(store);
      var groups := PairTurns(msgs);
      var todo := Todo(groups, seen);
      complete := Send(todo, g);
    }

    /** One call for each batch; the first refusal ends the run. */
    method Send(todo: seq<seq<Message>>, g: Gateway) returns (complete: bool)
      modifies this
      ensures store == old(store) + Rows(Concat(todo[..Accepted(|todo|, g, 0)]))
      ensures complete <==> Accepted(|todo|, g, 0) == |todo|
    {
      hide Rows, Concat;
      complete := true;
      NothingSent(todo);
      assert store + [] == store;
      var i := 0;
      while i < |todo|
        invariant i <= |todo| && complete
        invariant store == old(store) + Rows(Concat(todo[..i]))
        invariant Accepted(|todo|, g, 0) == i + Accepted(|todo| - i, g, i)
      {
        if !g(i) {
          complete := false;
          break;
        }
        OneMoreBatch(todo, i);
        store := store + Rows(todo[i]);
        i := i + 1;
      }
    }

    method Todo(groups: seq<Group>, seen: set<Key>) returns (todo: seq<seq<Message>>)
      ensures todo == Batches(groups, seen)
    {
      hide Unseen, Batches;
      todo := [];
      BatchesStart(groups, seen);
      for i := 0 to |groups|
        invariant Batches(groups, seen) == todo + Batches(groups[i..], seen)
      {
        BatchesStep(groups, seen, i);
        var batch := Unseen(Members(groups[i]), seen);
        if batch != [] {
          Emit(todo, batch, Batches(groups[i + 1..], seen));
          todo := todo + [batch];
        }
      }
      BatchesStop(groups, seen);
      assert todo + [] == todo;
    }
  }

  lemma BatchesStart(groups: seq<Group>, seen: set<Key>)
    ensures Batches(groups, seen) == [] + Batches(groups[0..], seen)
  {
    assert groups[0..] == groups;
  }

  lemma BatchesStop(groups: seq<Group>, seen: set<Key>)
    ensures Batches(groups[|groups|..], seen) == []
  {
  }

  lemma BatchesStep(groups: seq<Group>, seen: set<Key>, i: nat)
    requires i < |groups|
    ensures var batch := Unseen(Members(groups[i]), seen); var rest := Batches(groups[i + 1..], seen);
            Batches(groups[i..], seen) == if batch == [] then rest else [batch] + rest
  {
    hide Unseen;
    assert groups[i..][1..] == groups[i + 1..];
    assert [] + Batches(groups[i + 1..], seen) == Batches(groups[i + 1..], seen);
  }

  lemma NothingSent(todo: seq<seq<Message>>)
    ensures Rows(Concat(todo[..0])) == []
  {
  }

  lemma {:induction false} ConcatSnoc(batches: seq<seq<Message>>, b: seq<Message>)
    ensures Concat(batches + [b]) == Concat(batches) + b
  {
    if batches == [] {
      assert [] + [b] == [b] && b + [] == b;
    } else {
      assert (batches + [b])[1..] == batches[1..] + [b];
      ConcatSnoc(batches[1..], b);
    }
  }

  lemma OneMoreBatch(todo: seq<seq<Message>>, i: nat)
    requires i < |todo|
    ensures Rows(Concat(todo[..i + 1])) == Rows(Concat(todo[..i])) + Rows(todo[i])
  {
    hide Cut, Concat;
    assert todo[..i + 1] == todo[..i] + [todo[i]];
    ConcatSnoc(todo[..i], todo[i]);
  }

  lemma {:induction false} UnseenAppend(a: seq<Message>, b: seq<Message>, seen: set<Key>)
    ensures Unseen(a + b, seen) == Unseen(a, seen) + Unseen(b, seen)
  {
    hide KeyOf;
    if a == [] {
      assert a + b == b && [] + Unseen(b, seen) == Unseen(b, seen);
    } else {
      assert (a + b)[1..] == a[1..] + b;
      UnseenAppend(a[1..], b, seen);
    }
  }

  lemma {:induction false} BatchesConcat(groups: seq<Group>, seen: set<Key>)
    ensures Concat(Batches(groups, seen)) == Unseen(Flatten(groups), seen)
  {
    hide KeyOf, Unseen, Batches;
    if groups == [] {
      NobodyUnseen(seen);
      BatchesStop(groups, seen);
    } else {
      BatchesConcat(groups[1..], seen);
      BatchesStep(groups, seen, 0);
      assert groups[0..] == groups;
      assert Unseen(Members(groups[0]), seen) == [] ==>
          Unseen(Members(groups[0]), seen) + Unseen(Flatten(groups[1..]), seen) == Unseen(Flatten(groups[1..]), seen);
      UnseenAppend(Members(groups[0]), Flatten(groups[1..]), seen);
    }
  }

  lemma NobodyUnseen(seen: set<Key>)
    ensures Unseen([], seen) == []
  {
  }

  lemma {:induction false} AllAccepted(n: nat, g: Gateway, from: nat)
    requires forall k :: g(k)
    ensures Accepted(n, g, from) == n
  {
    if n > 0 {
      AllAccepted(n - 1, g, from + 1);
    }
  }

  /** A replay that is not refused sends, in their original order, exactly the messages whose key the store lacked. */
  lemma ReplaySendsTheUnseen(msgs: seq<Message>, store: seq<Row>, g: Gateway)
    requires forall k :: g(k)
    ensures SentBy(msgs, store, g) == Unseen(msgs, Seen(store))
  {
    hide Paired, Unseen, Seen, Concat;
    var batches := Batches(Paired(msgs), Seen(store));
    AllAccepted(|batches|, g, 0);
    assert batches[..|batches|] == batches;
    BatchesConcat(Paired(msgs), Seen(store));
    PairingFlattens(msgs);
  }

  /** One call: a message, or an exchange of which neither side is stored. */
  predicate Call(batch: seq<Message>) {
    |batch| == 1 || (|batch| == 2 && batch[0].role == User && batch[1].role == Assistant)
  }

  lemma {:induction false} BatchesAreCalls(msgs: seq<Message>, seen: set<Key>)
    ensures forall b :: b in Batches(Paired(msgs), seen) ==> Call(b)
    decreases |msgs|
  {
    hide KeyOf;
    if msgs != [] {
      var rest := if Exchange(msgs, 0) then msgs[2..] else msgs[1..];
      BatchesAreCalls(rest, seen);
      var groups := Paired(msgs);
      assert groups[1..] == Paired(rest);
      UnseenOfTwo(groups[0], seen);
    }
  }

  lemma UnseenOfTwo(g: Group, seen: set<Key>)
    ensures var b := Unseen(Members(g), seen);
            |b| <= |Members(g)| && (|b| == 2 ==> b == Members(g))
  {
    hide KeyOf;
    if g.Pair? {
      OneUnseen(g.assistant, seen);
      assert Members(g)[1..] == [g.assistant];
    } else {
      OneUnseen(g.message, seen);
    }
  }

  /** A replay goes call by call: each of one unseen message or one unseen exchange, together all the unseen messages in
      order; and what is sent are the calls up to the first one that is refused. */
  lemma RefusalEndsTheReplay(msgs: seq<Message>, store: seq<Row>, g: Gateway) returns (calls: seq<seq<Message>>, n: nat)
    ensures Concat(calls) == Unseen(msgs, Seen(store)) && forall b :: b in calls ==> Call(b)
    ensures n <= |calls| && (forall k :: 0 <= k < n ==> g(k)) && (n < |calls| ==> !g(n))
    ensures SentBy(msgs, store, g) == Concat(calls[..n])
  {
    hide Unseen, Batches, Paired, Seen, Concat;
    calls := Batches(Paired(msgs), Seen(store));
    n := Accepted(|calls|, g, 0);
    BatchesConcat(Paired(msgs), Seen(store));
    PairingFlattens(msgs);
    BatchesAreCalls(msgs, Seen(store));
    AcceptedUntilRefused(|calls|, g, 0);
  }

  lemma {:induction false} AcceptedUntilRefused(batches: nat, g: Gateway, from: nat)
    ensures var n := Accepted(batches, g, from);
            (forall k :: from <= k < from + n ==> g(k)) && (n < batches ==> !g(from + n))
    decreases batches
  {
    if batches > 0 && g(from) {
      AcceptedUntilRefused(batches - 1, g, from + 1);
    }
  }

  /** A stored text of the same role has the same first 96 characters of its words. */
  predicate Stored(store: seq<Row>, m: Message) {
    exists r | r in store :: r.role == m.role && First96(Scan(r.text).text) == First96(Scan(m.content).text)
  }

  function First96(s: string): string {
    if |s| > 96 then s[..96] else s
  }

  /** So a message is sent exactly when nothing like it is stored yet; and what is stored of it are its role and the first
      8000 characters of its content. */
  lemma SentExactlyWhenNotStored(msgs: seq<Message>, store: seq<Row>, g: Gateway, m: Message)
    requires forall k :: g(k)
    ensures m in SentBy(msgs, store, g) <==> m in msgs && !Stored(store, m)
    ensures var sent := SentBy(msgs, store, g);
            |Rows(sent)| == |sent|
            && forall i | 0 <= i < |sent| ::
                 Rows(sent)[i] == Row(sent[i].role, if |sent[i].content| > 8000 then sent[i].content[..8000] else sent[i].content)
  {
    ReplaySendsTheUnseen(msgs, store, g);
    UnseenAre(msgs, Seen(store), m);
    hide SentBy, Normal, Scan;
    forall s: string
      ensures Norm(s) == First96(Scan(s).text)
    {
      NormalIsWords(s);
    }
    assert KeyOf(m) in Seen(store) <==> Stored(store, m) by {
      hide Norm, First96;
      if KeyOf(m) in Seen(store) {
        var r :| r in store && Key(r.role, Norm(r.text)) == KeyOf(m);
      }
      if r :| r in store && r.role == m.role && First96(Scan(r.text).text) == First96(Scan(m.content).text) {
        assert Key(r.role, Norm(r.text)) == KeyOf(m);
      }
    }
  }

  lemma {:induction false} UnseenAre(msgs: seq<Message>, seen: set<Key>, m: Message)
    ensures m in Unseen(msgs, seen) <==> m in msgs && KeyOf(m) !in seen
  {
    hide KeyOf;
    if msgs != [] {
      UnseenAre(msgs[1..], seen, m);
      assert m in msgs <==> m == msgs[0] || m in msgs[1..];
    }
  }

  lemma StoredKeysAreSeen(store: seq<Row>, sent: seq<Message>, m: Message)
    requires m in sent && Norm(Cut(m.content)) == Norm(m.content)
    ensures KeyOf(m) in Seen(store + Rows(sent))
  {
    hide Norm, Cut;
    var i :| 0 <= i < |sent| && sent[i] == m;
    var r := Row(m.role, Cut(m.content));
    assert Rows(sent)[i] == r;
    assert (store + Rows(sent))[|store| + i] == r;
    assert r in store + Rows(sent);
  }

  lemma SeenStays(store: seq<Row>, more: seq<Row>, k: Key)
    requires k in Seen(store)
    ensures k in Seen(store + more)
  {
    hide Norm;
    var r :| r in store && Key(r.role, Norm(r.text)) == k;
    assert r in store + more;
  }

  /** The key under which the cut text of a message is found again. */
  function CutKey(m: Message): Key {
    Key(m.role, Norm(Cut(m.content)))
  }

  lemma SeenAfter(store: seq<Row>, sent: seq<Message>, k: Key)
    ensures k in Seen(store + Rows(sent)) <==> k in Seen(store) || exists x :: x in sent && CutKey(x) == k
  {
    hide Norm, Cut;
    var rows := Rows(sent);
    if k in Seen(store + rows) {
      var r :| r in store + rows && Key(r.role, Norm(r.text)) == k;
      if r !in store {
        var i :| 0 <= i < |rows| && rows[i] == r;
        assert sent[i] in sent && CutKey(sent[i]) == k;
      }
    }
    if k in Seen(store) {
      SeenStays(store, rows, k);
    }
    if exists x :: x in sent && CutKey(x) == k {
      var x :| x in sent && CutKey(x) == k;
      var i :| 0 <= i < |sent| && sent[i] == x;
      assert rows[i] == Row(x.role, Cut(x.content));
      assert (store + rows)[|store| + i] == rows[i];
      assert rows[i] in store + rows;
    }
  }

  /** A second replay sends exactly the messages of the first whose key is not the key of any text that was stored. */
  lemma SecondReplaySends(msgs: seq<Message>, store: seq<Row>, g: Gateway, m: Message)
    requires forall k :: g(k)
    ensures var sent := SentBy(msgs, store, g);
            m in SentBy(msgs, store + Rows(sent), g) <==> m in sent && forall x :: x in sent ==> CutKey(x) != KeyOf(m)
  {
    hide Seen, Rows, Unseen, KeyOf, CutKey, SentBy;
    var sent := SentBy(msgs, store, g);
    ReplaySendsTheUnseen(msgs, store, g);
    ReplaySendsTheUnseen(msgs, store + Rows(sent), g);
    UnseenAre(msgs, Seen(store), m);
    UnseenAre(msgs, Seen(store + Rows(sent)), m);
    SeenAfter(store, sent, KeyOf(m));
  }

  /** A second replay sends nothing if and only if every message that was sent has the key of some text that was
      stored; so it does whenever the cut kept every key. */
  lemma SecondReplaySendsNothing(msgs: seq<Message>, store: seq<Row>, g: Gateway)
    requires forall k :: g(k)
    ensures var sent := SentBy(msgs, store, g);
            && (SentBy(msgs, store + Rows(sent), g) == [] <==> forall m :: m in sent ==> exists x :: x in sent && CutKey(x) == KeyOf(m))
            && ((forall m :: m in sent ==> CutKey(m) == KeyOf(m)) ==> SentBy(msgs, store + Rows(sent), g) == [])
  {
    hide Rows, KeyOf, CutKey, SentBy;
    var sent := SentBy(msgs, store, g);
    var again := SentBy(msgs, store + Rows(sent), g);
    forall m
      ensures m in again <==> m in sent && forall x :: x in sent ==> CutKey(x) != KeyOf(m)
    {
      SecondReplaySends(msgs, store, g, m);
    }
    assert again == [] <==> forall m :: m !in again by {
      assert again == [] || again[0] in again;
    }
  }

  /** One message is sent again if and only if the cut loses its key. */
  lemma SentAgainExactlyWhenTheCutLosesTheKey(m: Message, store: seq<Row>, g: Gateway)
    requires forall k :: g(k)
    requires KeyOf(m) !in Seen(store)
    ensures SentBy([m], store, g) == [m]
    ensures SentBy([m], store + Rows([m]), g) == (if Norm(Cut(m.content)) == Norm(m.content) then [] else [m])
  {
    hide Norm, Cut, Seen, SentBy, Rows;
    ReplaySendsTheUnseen([m], store, g);
    ReplaySendsTheUnseen([m], store + Rows([m]), g);
    OneUnseen(m, Seen(store));
    OneUnseen(m, Seen(store + Rows([m])));
    SeenAfter(store, [m], KeyOf(m));
    assert m in [m] && forall x :: x in [m] ==> x == m;
    assert CutKey(m) == KeyOf(m) <==> Norm(Cut(m.content)) == Norm(m.content);
  }

  lemma OneUnseen(m: Message, seen: set<Key>)
    ensures Unseen([m], seen) == if KeyOf(m) in seen then [] else [m]
  {
    hide KeyOf;
    assert [m][1..] == [] && Unseen([], seen) == [];
  }

  function Blanks(n: nat): string {
    if n == 0 then "" else Blanks(n - 1) + " "
  }

  lemma {:induction false} BlanksAreSpace(n: nat)
    ensures |Blanks(n)| == n && AllSpace(Blanks(n))
  {
    if n > 0 {
      BlankIsSpace();
      BlanksAreSpace(n - 1);
    }
  }

  /** A word after 8000 blanks: what is stored is blank, so the message is sent again on every replay. */
  lemma BuriedWordIsSentAgain(time: int, g: Gateway)
    requires forall k :: g(k)
    ensures var m := Message(User, time, Blanks(MAX_CONTENT) + "x"); SentBy([m], Rows([m]), g) == [m]
  {
    hide Blanks, Normal, Norm, SentBy, Rows;
    var text := Blanks(MAX_CONTENT) + "x";
    var m := Message(User, time, text);
    BlanksAreSpace(MAX_CONTENT);
    assert Cut(text) == Blanks(MAX_CONTENT) && text[MAX_CONTENT..] == "x";
    NormalIsWords(Cut(text));
    ScanFacts(Cut(text));
    assert !AllSpace("x") by {
      assert !IsSpace("x"[0]);
    }
    CutKeepsTheKey(text);
    assert Seen([]) == {};
    SentAgainExactlyWhenTheCutLosesTheKey(m, [], g);
    assert [] + Rows([m]) == Rows([m]);
  }

  /** A replay that was refused part-way can be resumed: the next one sends none of the messages already sent, and
      after it every message's key is in the store. */
  lemma ResumeCompletes(msgs: seq<Message>, store: seq<Row>, refused: Gateway, g: Gateway, m: Message)
    requires forall k :: g(k)
    requires forall x | x in msgs :: Norm(Cut(x.content)) == Norm(x.content)
    requires m in msgs
    ensures var partway := store + Rows(SentBy(msgs, store, refused));
            var resumed := SentBy(msgs, partway, g);
            && (m in SentBy(msgs, store, refused) ==> m !in resumed)
            && KeyOf(m) in Seen(partway + Rows(resumed))
  {
    hide Seen, Rows, Unseen, Norm, SentBy;
    var first := SentBy(msgs, store, refused);
    var partway := store + Rows(first);
    var resumed := SentBy(msgs, partway, g);
    ReplaySendsTheUnseen(msgs, partway, g);
    UnseenAre(msgs, Seen(partway), m);
    if m in first {
      StoredKeysAreSeen(store, first, m);
    }
    if m in resumed {
      StoredKeysAreSeen(partway, resumed, m);
    } else {
      SeenStays(partway, Rows(resumed), KeyOf(m));
    }
  }
}
