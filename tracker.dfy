/**
  The process-wide registries of known chats (`bot_data["user_ids"]`,
  `["group_ids"]`, `["channel_ids"]`) and the two operations on them:
  `track_chats`, which updates them in place, and `show_chats`, which lists them.
*/
module Tracker {
  import opened Wrappers
  import opened Membership

  class BotData {
    var userIds: set<int>
    var groupIds: set<int>
    var channelIds: set<int>

    /** The registries as a value. */
    function Snapshot(): Registry
      reads this
    {
      Registry(userIds, groupIds, channelIds)
    }

    /** All three registries start empty, as `setdefault(..., set())` creates them. */
    constructor ()
      ensures Snapshot() == Empty
    {
      userIds, groupIds, channelIds := {}, {}, {};
    }

    /** `track_chats`: file the chat under the registry its type selects, adding
        it when the bot joined and discarding it when the bot left. */
    method TrackChats(d: Difference, chatType: ChatType, chatId: int)
      modifies this
      ensures Snapshot() == Track(old(Snapshot()), d, chatType, chatId)
    {
      var result := ExtractStatusChange(d);
      if result.None? {
        return;
      }
      var Transition(wasMember, isMember) := result.value;
      if chatType == Private {
        if !wasMember && isMember {
          userIds := userIds + {chatId};
        } else if wasMember && !isMember {
          userIds := userIds - {chatId};
        }
      } else if chatType == Group || chatType == Supergroup {
        if !wasMember && isMember {
          groupIds := groupIds + {chatId};
        } else if wasMember && !isMember {
          groupIds := groupIds - {chatId};
        }
      } else {
        if !wasMember && isMember {
          channelIds := channelIds + {chatId};
        } else if wasMember && !isMember {
          channelIds := channelIds - {chatId};
        }
      }
    }

    /** `show_chats`, without the text: the ids of each registry, each listed
        once, in no particular order. */
    method ShowChats() returns (users: seq<int>, groups: seq<int>, channels: seq<int>)
      ensures Listing(users, userIds) && Listing(groups, groupIds) && Listing(channels, channelIds)
    {
      users := Enumerate(userIds);
      groups := Enumerate(groupIds);
      channels := Enumerate(channelIds);
    }
  }

  /** `xs` lists every element of `s` exactly once. */
  predicate Listing(xs: seq<int>, s: set<int>)
  {
    && (forall x :: x in xs ==> x in s)
    && (forall x :: x in s ==> x in xs)
    && (forall i, j :: 0 <= i < j < |xs| ==> xs[i] != xs[j])
  }

  /** A non-empty set has an element. */
  lemma Inhabited(s: set<int>)
    requires s != {}
    ensures exists x :: x in s
  {
    if forall x :: x !in s {
      assert false;
    }
  }

  /** The iteration `str(uid) for uid in ...` over a set, in an unspecified order. */
  method Enumerate(s: set<int>) returns (xs: seq<int>)
    ensures Listing(xs, s)
    ensures |xs| == |s|
  {
    xs := [];
    var rest := s;
    while rest != {}
      invariant rest <= s
      invariant forall y :: y in xs <==> y in s - rest
      invariant forall i, j :: 0 <= i < j < |xs| ==> xs[i] != xs[j]
      invariant |xs| + |rest| == |s|
      decreases |rest|
    {
      Inhabited(rest);
      var x :| x in rest;
      assert x !in xs;
      xs := xs + [x];
      rest := rest - {x};
    }
  }
}
