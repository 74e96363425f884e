/**
  The pure half of the membership tracker: turning a chat-member update into a
  was-member / is-member transition, choosing a greeting, and the effect a
  transition has on the three registries of known chats.
*/
module Membership {
  import opened Wrappers

  /** A chat member's status. `Unrecognised` carries any status string other
      than the six the platform documents; the code treats it like any other
      status outside the member list. */
  datatype Status =
    | Creator
    | Administrator
    | Member
    | Restricted
    | Left
    | Kicked
    | Unrecognised(name: string)

  /** The two entries of `ChatMemberUpdated.difference()` the code reads, each
      an (old, new) pair that is present only when the value changed.  An
      `is_member` value is `None` when that side of the update has no such
      attribute. */
  datatype Difference = Difference(
    status: Option<(Status, Status)>,
    isMember: Option<(Option<bool>, Option<bool>)>)

  /** The derived pair `(was_member, is_member)`. */
  datatype Transition = Transition(wasMember: bool, isMember: bool)

  /** The statuses listed as members outright. */
  predicate InMemberList(s: Status)
  {
    s == Member || s == Creator || s == Administrator
  }

  /** Membership of one side of the update: a listed status, or `restricted`
      with an `is_member` flag that is exactly `True`. */
  predicate CountsAsMember(s: Status, flag: Option<bool>)
  {
    InMemberList(s) || (s == Restricted && flag == Some(true))
  }

  /** The `is_member` pair, `(None, None)` when the entry is missing. */
  function MemberFlags(d: Difference): (r: (Option<bool>, Option<bool>))
    ensures r.0 == Some(true) <==> d.isMember.Some? && d.isMember.value.0 == Some(true)
    ensures r.1 == Some(true) <==> d.isMember.Some? && d.isMember.value.1 == Some(true)
    ensures d.isMember.None? ==> r == (None, None)
  {
    if d.isMember.Some? then d.isMember.value else (None, None)
  }

  /** `extract_status_change`: `None` when the status did not change,
      otherwise whether the old and the new member counted as members. */
  function ExtractStatusChange(d: Difference): (r: Option<Transition>)
    ensures r.None? <==> d.status.None?
    ensures r.Some? && d.status.value.0 in {Member, Creator, Administrator} ==> r.value.wasMember
    ensures r.Some? && d.status.value.1 in {Member, Creator, Administrator} ==> r.value.isMember
    ensures r.Some? && d.status.value.0 == Restricted ==>
              (r.value.wasMember <==> MemberFlags(d).0 == Some(true))
    ensures r.Some? && d.status.value.1 == Restricted ==>
              (r.value.isMember <==> MemberFlags(d).1 == Some(true))
    ensures r.Some? && (d.status.value.0.Left? || d.status.value.0.Kicked? || d.status.value.0.Unrecognised?) ==>
              !r.value.wasMember
    ensures r.Some? && (d.status.value.1.Left? || d.status.value.1.Kicked? || d.status.value.1.Unrecognised?) ==>
              !r.value.isMember
  {
    match d.status
    case None => None
    case Some((oldStatus, newStatus)) =>
      var (oldIsMember, newIsMember) := MemberFlags(d);
      Some(Transition(CountsAsMember(oldStatus, oldIsMember), CountsAsMember(newStatus, newIsMember)))
  }

  /** A change of `is_member` alone, without a change of status, yields no
      transition. */
  lemma IsMemberChangeAloneIsIgnored(flags: Option<(Option<bool>, Option<bool>)>)
    ensures ExtractStatusChange(Difference(None, flags)) == None
  {
  }

  /** A restricted member whose flag is `False` or missing counts exactly as
      one who left: replacing the old status by `left` changes nothing. */
  lemma RestrictedWithoutTrueIsLikeLeft(d: Difference)
    requires d.status.Some? && d.status.value.0 == Restricted
    requires MemberFlags(d).0 != Some(true)
    ensures ExtractStatusChange(d) ==
            ExtractStatusChange(Difference(Some((Left, d.status.value.1)), d.isMember))
  {
  }

  /** The flag only matters for `restricted`: for every other old status the
      result does not depend on the `is_member` entry at all. */
  lemma FlagOnlyMattersWhenRestricted(d: Difference, flags: Option<(Option<bool>, Option<bool>)>)
    requires d.status.Some?
    requires d.status.value.0 != Restricted && d.status.value.1 != Restricted
    ensures ExtractStatusChange(d) == ExtractStatusChange(Difference(d.status, flags))
  {
  }

  /** What `greet_chat_members` sends. */
  datatype Greeting = Welcome | Farewell

  /** `greet_chat_members`: a welcome for a member who joined, a farewell for
      one who left, nothing otherwise.  It is a function of the update alone,
      so it cannot touch the registries. */
  function GreetChatMembers(d: Difference): (g: Option<Greeting>)
    ensures g == Some(Welcome) <==> ExtractStatusChange(d) == Some(Transition(false, true))
    ensures g == Some(Farewell) <==> ExtractStatusChange(d) == Some(Transition(true, false))
  {
    match ExtractStatusChange(d)
    case None => None
    case Some(t) =>
      if !t.wasMember && t.isMember then Some(Welcome)
      else if t.wasMember && !t.isMember then Some(Farewell)
      else None
  }

  /** Nothing is sent when the status did not change or when membership is the
      same on both sides. */
  lemma GreetsNothingWithoutChange(d: Difference)
    ensures GreetChatMembers(d) == None <==>
            (ExtractStatusChange(d) == None ||
             ExtractStatusChange(d).value.wasMember == ExtractStatusChange(d).value.isMember)
  {
  }

  /** The type of the chat in which the bot's own membership changed.
      `OtherType` carries any type string other than "private", "group",
      "supergroup" and "channel". */
  datatype ChatType = Private | Group | Supergroup | Channel | OtherType(name: string)

  /** The three registries `user_ids`, `group_ids` and `channel_ids`. */
  datatype Category = Users | Groups | Channels

  /** The registry a chat is filed under: private chats under users, groups
      and supergroups under groups, everything else under channels. */
  function CategoryOf(t: ChatType): (c: Category)
    ensures c == Users <==> t == Private
    ensures c == Groups <==> t == Group || t == Supergroup
    ensures c == Channels <==> !(t == Private || t == Group || t == Supergroup)
  {
    if t == Private then Users
    else if t == Group || t == Supergroup then Groups
    else Channels
  }

  /** The contents of the three registries at one moment. */
  datatype Registry = Registry(userIds: set<int>, groupIds: set<int>, channelIds: set<int>)
  {
    function Ids(c: Category): set<int>
    {
      match c
      case Users => userIds
      case Groups => groupIds
      case Channels => channelIds
    }

    function With(c: Category, ids: set<int>): (r: Registry)
      ensures r.Ids(c) == ids
      ensures forall c' :: c' != c ==> r.Ids(c') == Ids(c')
    {
      match c
      case Users => this.(userIds := ids)
      case Groups => this.(groupIds := ids)
      case Channels => this.(channelIds := ids)
    }
  }

  const Empty := Registry({}, {}, {})

  /** The effect of one transition on the registry of category `c`: a joining
      id is added, a leaving one discarded, equal flags change nothing. */
  function Apply(ids: set<int>, id: int, t: Transition): set<int>
  {
    if !t.wasMember && t.isMember then ids + {id}
    else if t.wasMember && !t.isMember then ids - {id}
    else ids
  }

  /** What `track_chats` does to the registries for one update about the chat
      `chatId` of type `chatType`. */
  function Track(reg: Registry, d: Difference, chatType: ChatType, chatId: int): (r: Registry)
    ensures ExtractStatusChange(d).None? ==> r == reg
    ensures forall c :: c != CategoryOf(chatType) ==> r.Ids(c) == reg.Ids(c)
    ensures ExtractStatusChange(d) == Some(Transition(false, true)) ==>
              r.Ids(CategoryOf(chatType)) == reg.Ids(CategoryOf(chatType)) + {chatId}
    ensures ExtractStatusChange(d) == Some(Transition(true, false)) ==>
              r.Ids(CategoryOf(chatType)) == reg.Ids(CategoryOf(chatType)) - {chatId}
    ensures (ExtractStatusChange(d).Some? &&
             ExtractStatusChange(d).value.wasMember == ExtractStatusChange(d).value.isMember) ==> r == reg
  {
    match ExtractStatusChange(d)
    case None => reg
    case Some(t) =>
      var c := CategoryOf(chatType);
      if t.wasMember == t.isMember then reg else reg.With(c, Apply(reg.Ids(c), chatId, t))
  }

  /** Applying the same update twice gives the same registries as applying it
      once: adding a present id and discarding an absent one are no-ops. */
  lemma TrackIsIdempotent(reg: Registry, d: Difference, chatType: ChatType, chatId: int)
    ensures Track(Track(reg, d, chatType, chatId), d, chatType, chatId) == Track(reg, d, chatType, chatId)
  {
  }

  /** After a joining update the chat is registered, after a leaving one it is
      not, whatever the registries held before. */
  lemma TrackRegistersJoinAndLeave(reg: Registry, d: Difference, chatType: ChatType, chatId: int)
    requires ExtractStatusChange(d).Some?
    ensures var t := ExtractStatusChange(d).value;
            var ids := Track(reg, d, chatType, chatId).Ids(CategoryOf(chatType));
            (!t.wasMember && t.isMember ==> chatId in ids) &&
            (t.wasMember && !t.isMember ==> chatId !in ids) &&
            (t.wasMember == t.isMember ==> (chatId in ids <==> chatId in reg.Ids(CategoryOf(chatType))))
  {
  }

  /** No id is filed under two registries. */
  predicate Exclusive(reg: Registry)
  {
    forall c1, c2, id :: id in reg.Ids(c1) && id in reg.Ids(c2) ==> c1 == c2
  }

  /** Every registered id is filed under the category `kind` assigns to it. */
  predicate FiledBy(reg: Registry, kind: int -> Category)
  {
    forall c, id :: id in reg.Ids(c) ==> kind(id) == c
  }

  lemma FiledByIsExclusive(reg: Registry, kind: int -> Category)
    requires FiledBy(reg, kind)
    ensures Exclusive(reg)
  {
    forall c1, c2, id | id in reg.Ids(c1) && id in reg.Ids(c2) ensures c1 == c2 {
      assert kind(id) == c1 && kind(id) == c2;
    }
  }

  /** The updates `track_chats` receives, in order: the difference, the chat
      type and the chat id. */
  datatype ChatUpdate = ChatUpdate(diff: Difference, chatType: ChatType, chatId: int)

  function TrackAll(reg: Registry, us: seq<ChatUpdate>): Registry
    decreases |us|
  {
    if us == [] then reg
    else TrackAll(Track(reg, us[0].diff, us[0].chatType, us[0].chatId), us[1..])
  }

  /** The code keeps no id in two registries as long as each chat id always
      arrives with a chat type of the same category (the platform never changes
      a chat's type under the same id). */
  lemma {:induction false} TrackAllStaysExclusive(reg: Registry, us: seq<ChatUpdate>, kind: int -> Category)
    requires FiledBy(reg, kind)
    requires forall i :: 0 <= i < |us| ==> CategoryOf(us[i].chatType) == kind(us[i].chatId)
    ensures FiledBy(TrackAll(reg, us), kind)
    ensures Exclusive(TrackAll(reg, us))
    decreases |us|
  {
    if us != [] {
      var u := us[0];
      var next := Track(reg, u.diff, u.chatType, u.chatId);
      forall c, id | id in next.Ids(c) ensures kind(id) == c {
        if c != CategoryOf(u.chatType) || id != u.chatId {
          assert id in reg.Ids(c);
        }
      }
      TrackAllStaysExclusive(next, us[1..], kind);
    }
    FiledByIsExclusive(TrackAll(reg, us), kind);
  }

  /** The code does not enforce exclusivity itself: the same id arriving once
      as a private chat and once as a group ends up in two registries. */
  lemma ExclusivityNeedsConsistentTypes()
    ensures var join := Difference(Some((Left, Member)), None);
            var reg := TrackAll(Empty, [ChatUpdate(join, Private, 7), ChatUpdate(join, Group, 7)]);
            !Exclusive(reg)
  {
    var join := Difference(Some((Left, Member)), None);
    var r1 := Track(Empty, join, Private, 7);
    var reg := Track(r1, join, Group, 7);
    var us := [ChatUpdate(join, Private, 7), ChatUpdate(join, Group, 7)];
    assert us[1..][1..] == [];
    assert TrackAll(Empty, us) == TrackAll(r1, us[1..]) == TrackAll(reg, []);
    assert 7 in reg.Ids(Users) && 7 in reg.Ids(Groups);
  }
}
