/**
  The bookkeeping the conversation handler keeps around the handler table: the
  current state of every conversation in progress.  A conversation that
  reaches END is dropped, so a later `/start` begins a new one.
*/
module Sessions {
  import opened Wrappers
  import opened Conversation

  /** The conversations after one message from `key`. */
  function Advance<K>(m: map<K, State>, key: K, e: Event): (r: map<K, State>)
    ensures forall k :: k in m && k != key ==> k in r && r[k] == m[k]
    ensures forall k :: k in r && k != key ==> k in m
    ensures NoneEnded(m) ==> NoneEnded(r)
    ensures key in m && key !in r ==> Step(m[key], e) == Some(End)
    ensures var next := if key in m then Step(m[key], e) else Begin(e);
            && (next.None? ==> r == m)
            && (next == Some(End) ==> key !in r)
            && (next.Some? && next.value != End ==> key in r && r[key] == next.value)
  {
    var next := if key in m then Step(m[key], e) else Begin(e);
    match next
    case None => m
    case Some(s) => if s == End then m - {key} else m[key := s]
  }

  /** No conversation is ever stored as ended. */
  predicate NoneEnded<K>(m: map<K, State>)
  {
    forall k :: k in m ==> m[k] != End
  }

  /** One message changes only its sender's conversation, keeps every stored
      state an awaiting one, and moves the sender's conversation forward:
      `/start` opens a new one at GENDER, a handled message moves a running
      one strictly forward, an unhandled one leaves the table as it was. */
  lemma AdvanceMovesOnlyTheSender<K>(m: map<K, State>, key: K, e: Event)
    requires NoneEnded(m)
    ensures NoneEnded(Advance(m, key, e))
    ensures forall k :: k != key ==> (k in Advance(m, key, e) <==> k in m)
    ensures forall k :: k != key && k in m ==> Advance(m, key, e)[k] == m[k]
    ensures key !in m && key in Advance(m, key, e) ==> Advance(m, key, e)[key] == Gender
    ensures key in m && key in Advance(m, key, e) ==> Rank(m[key]) <= Rank(Advance(m, key, e)[key])
    ensures key in m && IsCancel(e) ==> key !in Advance(m, key, e)
    ensures key !in m && Begin(e).Some? ==> key in Advance(m, key, e) && Advance(m, key, e)[key] == Gender
    ensures key in m && Step(m[key], e).Some? && key in Advance(m, key, e) ==>
              Rank(m[key]) < Rank(Advance(m, key, e)[key])
    ensures key in m && Step(m[key], e).None? ==> Advance(m, key, e) == m
  {
  }

  /** The conversation handler's table of conversations in progress, keyed by
      the identity the library derives from each update. */
  class Conversations<K(==)> {
    var current: map<K, State>

    ghost predicate Valid()
      reads this
    {
      NoneEnded(current)
    }

    constructor ()
      ensures Valid() && current == map[]
    {
      current := map[];
    }

    /** Hands one message from `key` to the entry points when no conversation
        of `key` is running, and to its current state's handlers otherwise. */
    method Deliver(key: K, e: Event) returns (handled: bool)
      requires Valid()
      modifies this
      ensures Valid()
      ensures handled <==> (if key in old(current) then Step(old(current)[key], e).Some? else Begin(e).Some?)
      ensures current == Advance(old(current), key, e)
    {
      var next: Option<State>;
      if key in current {
        next := Step(current[key], e);
      } else {
        next := Begin(e);
      }
      handled := next.Some?;
      if next.Some? {
        if next.value == End {
          current := current - {key};
        } else {
          current := current[key := next.value];
        }
      }
    }
  }
}
