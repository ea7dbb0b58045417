/** The hash chain of audit events: what a final hash commits to. The hash is an
    arbitrary function with 64-character results; no injectivity is assumed, a mismatch is
    answered with two explicit texts that collide. */
module AuditChain {

  type Hash = string -> string

  ghost predicate IsDigest(h: Hash) {
    forall s :: |h(s)| == 64
  }

  /** A payload as serialised (a JSON object text) and its ISO time. */
  datatype Event = Event(json: string, iso: string)

  /** An object text ends with a closing brace; an ISO time contains none. */
  predicate WellFormed(e: Event) {
    |e.json| > 0 && e.json[|e.json| - 1] == '}' && '}' !in e.iso
  }

  function Preimage(prev: string, e: Event): string {
    prev + e.json + e.iso
  }

  function EventHash(h: Hash, prev: string, e: Event): string {
    h(Preimage(prev, e))
  }

  function ChainHash(h: Hash, seed: string, events: seq<Event>): string {
    if |events| == 0 then seed
    else EventHash(h, ChainHash(h, seed, events[..|events| - 1]), events[|events| - 1])
  }

  lemma {:induction false} SplitAtBrace(a: Event, b: Event)
    requires WellFormed(a) && WellFormed(b) && a.json + a.iso == b.json + b.iso
    ensures a == b
  {
    var t := a.json + a.iso;
    // the last brace of the text is the end of the object in both readings
    BraceIsLast(a, t);
    BraceIsLast(b, t);
    assert |a.json| == |b.json|;
    assert a.json == t[..|a.json|] && b.json == t[..|a.json|];
    assert a.iso == t[|a.json|..] && b.iso == t[|a.json|..];
  }

  lemma BraceIsLast(e: Event, t: string)
    requires WellFormed(e) && t == e.json + e.iso
    ensures t[|e.json| - 1] == '}' && forall i | |e.json| <= i < |t| :: t[i] != '}'
  {
    forall i | |e.json| <= i < |t| ensures t[i] != '}' {
      assert t[i] == e.iso[i - |e.json|];
    }
  }

  /** The text that is hashed splits in one way only into a 64-character hash and an event. */
  lemma PreimageSplits(p: string, a: Event, q: string, b: Event)
    requires |p| == |q| == 64 && WellFormed(a) && WellFormed(b)
    requires Preimage(p, a) == Preimage(q, b)
    ensures p == q && a == b
  {
    var t := Preimage(p, a);
    assert p == t[..64] && q == t[..64];
    assert a.json + a.iso == t[64..] && b.json + b.iso == t[64..];
    SplitAtBrace(a, b);
  }

  lemma {:induction false} ChainHashLength(h: Hash, seed: string, events: seq<Event>)
    requires IsDigest(h) && |seed| == 64
    ensures |ChainHash(h, seed, events)| == 64
  {
  }

  ghost predicate Collides(h: Hash, x: string, y: string) {
    x != y && h(x) == h(y)
  }

  /** Binding: if a chain and a chain at least as long have the same final hash, then
      either the shorter one is the end of the longer one, event for event, and its seed is
      the longer one's hash at that point, or the two returned texts collide. */
  lemma {:induction false} ChainBinds(h: Hash, seed: string, events: seq<Event>, seed': string, events': seq<Event>)
    returns (x: string, y: string)
    requires IsDigest(h) && |seed| == |seed'| == 64 && |events| <= |events'|
    requires (forall e | e in events :: WellFormed(e)) && (forall e | e in events' :: WellFormed(e))
    requires ChainHash(h, seed, events) == ChainHash(h, seed', events')
    ensures var n := |events'| - |events|;
            (events == events'[n..] && seed == ChainHash(h, seed', events'[..n])) || Collides(h, x, y)
    decreases |events|
  {
    hide Preimage, IsDigest, WellFormed;
    if |events| == 0 {
      x, y := "", "";
      assert events'[..|events'|] == events';
    } else {
      var front, last := events[..|events| - 1], events[|events| - 1];
      var front', last' := events'[..|events'| - 1], events'[|events'| - 1];
      var p, p' := ChainHash(h, seed, front), ChainHash(h, seed', front');
      ChainHashLength(h, seed, front);
      ChainHashLength(h, seed', front');
      x, y := Preimage(p, last), Preimage(p', last');
      if x == y {
        PreimageSplits(p, last, p', last');
        x, y := ChainBinds(h, seed, front, seed', front');
        var n := |events'| - |events|;
        assert front'[..n] == events'[..n];
        assert events == front + [last] && events'[n..] == front'[n..] + [last'];
      }
    }
  }

  /** Two equally long chains with the same final hash are the same chain, seed and all,
      or exhibit a collision. */
  lemma EqualLengthChainsBind(h: Hash, seed: string, events: seq<Event>, seed': string, events': seq<Event>)
    returns (x: string, y: string)
    requires IsDigest(h) && |seed| == |seed'| == 64 && |events| == |events'|
    requires (forall e | e in events :: WellFormed(e)) && (forall e | e in events' :: WellFormed(e))
    requires ChainHash(h, seed, events) == ChainHash(h, seed', events')
    ensures (events == events' && seed == seed') || Collides(h, x, y)
  {
    x, y := ChainBinds(h, seed, events, seed', events');
    assert events'[0..] == events' && events'[..0] == [];
  }

  /** Equal length is needed: dropping the first event and seeding with its hash gives a
      shorter chain with the same final hash, for every hash function and every chain. */
  lemma {:induction false} PrefixCanBeFolded(h: Hash, seed: string, e: Event, rest: seq<Event>)
    ensures ChainHash(h, seed, [e] + rest) == ChainHash(h, EventHash(h, seed, e), rest)
    decreases |rest|
  {
    if |rest| == 0 {
      assert [e] + rest == [e] && [e][..0] == [];
    } else {
      assert ([e] + rest)[..|rest|] == [e] + rest[..|rest| - 1];
      PrefixCanBeFolded(h, seed, e, rest[..|rest| - 1]);
    }
  }
}
