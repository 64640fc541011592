/** The conversation list (src/pages/Messages.tsx): whose details are fetched, who
    the other party of a conversation is, the unread flag and the date bucket. */
module Messages {
  import opened Wrappers
  import opened Records

  /** The other party of a conversation: the buyer when the current user is its
      seller, and otherwise the seller (also when nobody is signed in). */
  function CounterpartId(c: Conversation, me: Option<User>): string
  {
    if IsCurrentUser(c.sellerId, me) then c.buyerId else c.sellerId
  }

  /** For a participant of a conversation between two different users, the
      counterpart is the other participant. */
  lemma CounterpartIsOtherParty(c: Conversation, me: Option<User>)
    requires me.Some? && c.sellerId != c.buyerId
    requires me.value.id == c.sellerId || me.value.id == c.buyerId
    ensures CounterpartId(c, me) == c.sellerId || CounterpartId(c, me) == c.buyerId
    ensures CounterpartId(c, me) != me.value.id
  {
  }

  /** Every seller and buyer id of the conversations. */
  function Parties(convs: seq<Conversation>): set<string>
  {
    if convs == [] then {}
    else Parties(convs[..|convs| - 1]) + {convs[|convs| - 1].sellerId, convs[|convs| - 1].buyerId}
  }

  /** Every conversation's seller and buyer are among the parties. */
  lemma {:induction false} PartiesContains(convs: seq<Conversation>, k: nat)
    requires k < |convs|
    ensures convs[k].sellerId in Parties(convs) && convs[k].buyerId in Parties(convs)
  {
    if k < |convs| - 1 {
      PartiesContains(convs[..|convs| - 1], k);
    }
  }

  /** `userIds.add(id)` on a `Set` kept as its insertion-ordered sequence. */
  function SetAdd(ids: seq<string>, id: string): (r: seq<string>)
    requires Distinct(ids)
    ensures Distinct(r)
    ensures forall x :: x in r <==> x in ids || x == id
  {
    if id in ids then ids else ids + [id]
  }

  predicate Distinct(ids: seq<string>)
  {
    forall i, j :: 0 <= i < j < |ids| ==> ids[i] != ids[j]
  }

  /** The ids collected into the `Set` of `fetchConversations`, in insertion order:
      every seller and buyer other than the current user, each once. */
  method CollectUserIds(convs: seq<Conversation>, me: Option<User>) returns (ids: seq<string>)
    ensures Distinct(ids)
    ensures forall id :: id in ids <==> id in Parties(convs) && !IsCurrentUser(id, me)
  {
    ids := [];
    for k := 0 to |convs|
      invariant Distinct(ids)
      invariant forall id :: id in ids <==> id in Parties(convs[..k]) && !IsCurrentUser(id, me)
    {
      var c := convs[k];
      assert convs[..k + 1][..k] == convs[..k];
      if !IsCurrentUser(c.sellerId, me) {
        ids := SetAdd(ids, c.sellerId);
      }
      if !IsCurrentUser(c.buyerId, me) {
        ids := SetAdd(ids, c.buyerId);
      }
    }
    assert convs[..|convs|] == convs;
  }

  /** In particular no collected id is the current user's, and each conversation's
      other party is collected. */
  lemma CollectedIdsCoverCounterparts(convs: seq<Conversation>, me: Option<User>, ids: seq<string>, k: nat)
    requires forall id :: id in ids <==> id in Parties(convs) && !IsCurrentUser(id, me)
    requires k < |convs|
    ensures me.Some? ==> me.value.id !in ids
    ensures !IsCurrentUser(convs[k].sellerId, me) ==> convs[k].sellerId in ids
    ensures !IsCurrentUser(convs[k].buyerId, me) ==> convs[k].buyerId in ids
  {
    PartiesContains(convs, k);
  }

  /** The `for` loop over the collected ids: one `GET /users/:id` each, in order; a
      failed request leaves that id out of the dictionary. */
  method FetchUserDetails(ids: seq<string>, userApi: string -> Outcome<User>) returns (users: map<string, User>)
    ensures forall id :: id in users <==> id in ids && userApi(id).Ok?
    ensures forall id :: id in users ==> users[id] == userApi(id).payload
  {
    users := map[];
    for k := 0 to |ids|
      invariant forall id :: id in users <==> id in ids[..k] && userApi(id).Ok?
      invariant forall id :: id in users ==> users[id] == userApi(id).payload
    {
      assert ids[..k + 1] == ids[..k] + [ids[k]];
      var userResponse := userApi(ids[k]);
      if userResponse.Ok? {
        users := users[ids[k] := userResponse.payload];
      }
    }
    assert ids[..|ids|] == ids;
  }

  /** `getOtherUser`: the counterpart's details, when they were fetched. */
  function OtherUser(c: Conversation, me: Option<User>, users: map<string, User>): (u: Option<User>)
    ensures u.Some? <==> CounterpartId(c, me) in users
    ensures u.Some? ==> u.value == users[CounterpartId(c, me)]
  {
    var otherId := CounterpartId(c, me);
    if otherId in users then Some(users[otherId]) else None
  }

  /** `otherUser?.username || "Unknown User"` */
  function DisplayName(u: Option<User>): string
  {
    if u.Some? && u.value.username != "" then u.value.username else "Unknown User"
  }

  /** A conversation whose counterpart was not fetched, or was fetched with an
      empty name, is shown as "Unknown User"; one whose counterpart was fetched
      with a name shows that name. */
  lemma UnknownUserExactly(c: Conversation, me: Option<User>, users: map<string, User>)
    ensures CounterpartId(c, me) !in users ==> DisplayName(OtherUser(c, me, users)) == "Unknown User"
    ensures CounterpartId(c, me) in users && users[CounterpartId(c, me)].username == "" ==>
      DisplayName(OtherUser(c, me, users)) == "Unknown User"
    ensures CounterpartId(c, me) in users && users[CounterpartId(c, me)].username != "" ==>
      DisplayName(OtherUser(c, me, users)) == users[CounterpartId(c, me)].username
  {
  }

  /** The "New message" flag: a seller sees the seller's read flag, anyone else the buyer's. */
  predicate IsUnread(c: Conversation, me: Option<User>)
  {
    if me.Some? && me.value.isSeller then !c.readBySeller else !c.readByBuyer
  }

  /** Each viewer's flag depends on that viewer's read mark alone: the buyer's mark
      never changes what a seller sees, nor the seller's mark what a buyer sees. */
  lemma UnreadUsesOwnMark(c: Conversation, me: Option<User>, mark: bool)
    ensures me.Some? && me.value.isSeller ==>
      (IsUnread(c, me) <==> !c.readBySeller) && IsUnread(c.(readByBuyer := mark), me) == IsUnread(c, me)
    ensures !(me.Some? && me.value.isSeller) ==>
      (IsUnread(c, me) <==> !c.readByBuyer) && IsUnread(c.(readBySeller := mark), me) == IsUnread(c, me)
  {
  }

  const MsPerHour := 1000 * 60 * 60

  /** How `formatDate` shows a date: as a time of day, as a weekday, or in full. */
  datatype DateBucket = TimeOfDay | Weekday | FullDate

  /** The bucket for a date `ageMs` milliseconds in the past (a future date has a
      negative age and shows a time of day). */
  function BucketOfAge(ageMs: int): (b: DateBucket)
    ensures b == TimeOfDay <==> ageMs < 24 * MsPerHour
    ensures b == Weekday <==> 24 * MsPerHour <= ageMs < 168 * MsPerHour
    ensures b == FullDate <==> ageMs >= 168 * MsPerHour
  {
    if ageMs < 24 * MsPerHour then TimeOfDay
    else if ageMs < 168 * MsPerHour then Weekday
    else FullDate
  }

  /** `formatDate(dateString)` against the clock reading `nowMs`; a date string that
      does not parse (`None`) fails both comparisons and is shown in full. */
  function Bucket(nowMs: int, dateMs: Option<int>): DateBucket
  {
    if dateMs.None? then FullDate else BucketOfAge(nowMs - dateMs.value)
  }

  function BucketRank(b: DateBucket): nat
  {
    match b
    case TimeOfDay => 0
    case Weekday => 1
    case FullDate => 2
  }

  /** An older date never lands in a finer bucket than a newer one. */
  lemma BucketMonotone(nowMs: int, older: int, newer: int)
    requires older <= newer
    ensures BucketRank(Bucket(nowMs, Some(newer))) <= BucketRank(Bucket(nowMs, Some(older)))
  {
  }

  /** The component state of the conversation list. */
  class MessagesPage {
    var conversations: seq<Conversation>
    var users: map<string, User>
    var loading: bool

    constructor ()
      ensures conversations == [] && users == map[] && loading
    {
      conversations := [];
      users := map[];
      loading := true;
    }

    /** `fetchConversations`: on success the list is replaced and the details of
        every other party are fetched; on failure nothing but the spinner changes. */
    method FetchConversations(me: Option<User>, response: Outcome<seq<Conversation>>,
                              userApi: string -> Outcome<User>)
      returns (requestedIds: seq<string>)
      modifies this
      ensures response.Fail? ==> requestedIds == [] && conversations == old(conversations) && users == old(users)
      ensures response.Ok? ==> conversations == response.payload
      ensures response.Ok? ==> Distinct(requestedIds)
      ensures response.Ok? ==> forall id :: id in requestedIds <==>
        id in Parties(response.payload) && !IsCurrentUser(id, me)
      ensures response.Ok? ==> forall id :: id in users <==> id in requestedIds && userApi(id).Ok?
      ensures response.Ok? ==> forall id :: id in users ==> users[id] == userApi(id).payload
      ensures !loading
    {
      if response.Fail? {
        requestedIds := [];
        loading := false;
        return;
      }
      conversations := response.payload;
      requestedIds := CollectUserIds(response.payload, me);
      users := FetchUserDetails(requestedIds, userApi);
      loading := false;
    }
  }
}
