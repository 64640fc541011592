/** The single-conversation page (src/pages/Message.tsx): how it finds the
    conversation to show (the route id, else a lookup by gig, else a new
    conversation with the gig's owner), then loads it and the other party. */
module MessagePage {
  import opened Wrappers
  import opened Strings
  import opened Records
  import Messages

  /** The server's answer to each request the page can make. */
  datatype Api = Api(
    conversationByGig: string -> Outcome<Conversation>,   // GET /conversations/gig/:gigId
    gigById: string -> Outcome<Gig>,                      // GET /gigs/single/:id
    createConversation: string -> Outcome<Conversation>,  // POST /conversations {to}
    conversationById: string -> Outcome<Conversation>,    // GET /conversations/single/:id
    messagesOf: string -> Outcome<seq<Message>>,          // GET /messages/:id
    userById: string -> Outcome<User>)                    // GET /users/:id

  /** The requests, in the order they are made. */
  datatype Request =
    | LookupByGig(gigId: string)
    | GetGig(gigId: string)
    | CreateConversation(to: string)
    | GetConversation(id: string)
    | GetMessages(id: string)
    | GetUser(id: string)

  /** Where the resolution ends: with a conversation id, with none, or with a
      thrown error that skips the rest of the effect. */
  datatype Resolution = Resolved(id: string) | NoId | Aborted

  /** `if (conversationId)`: an empty id counts as none. */
  function AsResolution(id: string): (r: Resolution)
    ensures r.Resolved? <==> id != ""
    ensures r.Resolved? ==> r.id == id
    ensures !r.Aborted?
  {
    if id != "" then Resolved(id) else NoId
  }

  /** The first part of `fetchConversation`, with the requests it makes: the route
      id when there is one; otherwise, given a gig id and a signed-in user, the
      existing conversation for the gig, or else a new one with the gig's owner. */
  function ResolutionOf(routeId: Option<string>, gigId: Option<string>, me: Option<User>, api: Api): (Resolution, seq<Request>)
  {
    if IsPresent(routeId) then (Resolved(routeId.value), [])
    else if !(IsPresent(gigId) && me.Some?) then (NoId, [])
    else
      var g := gigId.value;
      var byGig := api.conversationByGig(g);
      if byGig.Ok? then (AsResolution(byGig.payload.id), [LookupByGig(g)])
      else
        var gig := api.gigById(g);
        if gig.Fail? then (Aborted, [LookupByGig(g), GetGig(g)])
        else
          var to := gig.payload.userId;
          var created := api.createConversation(to);
          (if created.Ok? then AsResolution(created.payload.id) else Aborted,
           [LookupByGig(g), GetGig(g), CreateConversation(to)])
  }

  /** With a route id no lookup and no creation request is made. */
  lemma RouteIdMakesNoRequest(routeId: Option<string>, gigId: Option<string>, me: Option<User>, api: Api)
    requires IsPresent(routeId)
    ensures ResolutionOf(routeId, gigId, me, api) == (Resolved(routeId.value), [])
  {
  }

  /** Without a route id, and without a gig id or a signed-in user, there is no id
      and no request. */
  lemma NoGigNoId(routeId: Option<string>, gigId: Option<string>, me: Option<User>, api: Api)
    requires !IsPresent(routeId) && (!IsPresent(gigId) || me.None?)
    ensures ResolutionOf(routeId, gigId, me, api) == (NoId, [])
  {
  }

  /** Without a route id, a successful lookup by gig supplies the id, and no
      other request is made. */
  lemma LookupSuppliesId(routeId: Option<string>, gigId: Option<string>, me: Option<User>, api: Api)
    requires !IsPresent(routeId) && IsPresent(gigId) && me.Some?
    requires api.conversationByGig(gigId.value).Ok?
    ensures ResolutionOf(routeId, gigId, me, api) ==
      (AsResolution(api.conversationByGig(gigId.value).payload.id), [LookupByGig(gigId.value)])
  {
  }

  /** A conversation is created only after the lookup by gig failed and the gig was
      fetched, and always with the gig's owner. */
  lemma CreateOnlyAfterFailedLookup(routeId: Option<string>, gigId: Option<string>, me: Option<User>, api: Api, i: nat)
    requires i < |ResolutionOf(routeId, gigId, me, api).1|
    requires ResolutionOf(routeId, gigId, me, api).1[i].CreateConversation?
    ensures !IsPresent(routeId) && IsPresent(gigId) && me.Some? && i == 2
    ensures api.conversationByGig(gigId.value).Fail? && api.gigById(gigId.value).Ok?
    ensures ResolutionOf(routeId, gigId, me, api).1[i].to == api.gigById(gigId.value).payload.userId
  {
  }

  /** The imperative resolution of `fetchConversation`: the local `conversationId`
      starts as the route id and is reassigned by the lookup or the creation. */
  method ResolveConversationId(routeId: Option<string>, gigId: Option<string>, me: Option<User>, api: Api)
    returns (res: Resolution, log: seq<Request>)
    ensures (res, log) == ResolutionOf(routeId, gigId, me, api)
  {
    log := [];
    var conversationId := routeId;
    if !IsPresent(conversationId) {
      if IsPresent(gigId) && me.Some? {
        var g := gigId.value;
        log := log + [LookupByGig(g)];
        var response := api.conversationByGig(g);
        if response.Ok? {
          conversationId := Some(response.payload.id);
          assert log == [LookupByGig(g)];
        } else {
          log := log + [GetGig(g)];
          var gigResponse := api.gigById(g);
          if gigResponse.Fail? {
            assert log == [LookupByGig(g), GetGig(g)];
            return Aborted, log;
          }
          var to := gigResponse.payload.userId;
          log := log + [CreateConversation(to)];
          var newConversation := api.createConversation(to);
          if newConversation.Fail? {
            assert log == [LookupByGig(g), GetGig(g), CreateConversation(to)];
            return Aborted, log;
          }
          conversationId := Some(newConversation.payload.id);
          assert log == [LookupByGig(g), GetGig(g), CreateConversation(to)];
        }
      }
    }
    res := if IsPresent(conversationId) then Resolved(conversationId.value) else NoId;
  }

  /** The header line under the other party's name. */
  function PresenceText(c: Conversation): (t: string)
    ensures t == "Online" <==> c.readBySeller && c.readByBuyer
    ensures t == "Last seen recently" <==> !(c.readBySeller && c.readByBuyer)
  {
    if c.readBySeller && c.readByBuyer then "Online" else "Last seen recently"
  }

  /** The explanation on the fallback screen: an invitation when the address names
      a gig (any non-empty `gigId` parameter), a not-found notice otherwise. */
  function FallbackText(gigId: Option<string>): (t: string)
    ensures IsPresent(gigId) ==> t == "Click below to start chatting with the seller about this gig."
    ensures !IsPresent(gigId) ==> t == "The conversation you're looking for doesn't exist."
  {
    if IsPresent(gigId) then "Click below to start chatting with the seller about this gig."
    else "The conversation you're looking for doesn't exist."
  }

  /** The fallback screen draws the "Start Chat" button. */
  predicate StartChatOffered(gigId: Option<string>, me: Option<User>)
  {
    IsPresent(gigId) && me.Some?
  }

  /** The component state of the conversation page. */
  class MessageView {
    var conversation: Option<Conversation>
    var otherUser: Option<User>
    var loading: bool

    constructor ()
      ensures conversation == None && otherUser == None && loading
    {
      conversation := None;
      otherUser := None;
      loading := true;
    }

    /** The page shows the "Start a Conversation" screen instead of the chat. */
    predicate ShowsFallback()
      reads this
    {
      conversation.None? || otherUser.None?
    }

    /** The effect: nothing at all without a signed-in user; otherwise resolve the
        id, fetch the conversation together with its messages, then the other
        party, and stop the spinner whatever failed. */
    method FetchConversation(routeId: Option<string>, gigId: Option<string>, me: Option<User>, api: Api)
      returns (log: seq<Request>)
      modifies this
      ensures me.None? ==>
        log == [] && conversation == old(conversation) && otherUser == old(otherUser) && loading == old(loading)
      ensures me.Some? ==> !loading
      ensures me.Some? && IsPresent(routeId) ==> |log| >= 2 && log[..2] == [GetConversation(routeId.value), GetMessages(routeId.value)]
      ensures me.Some? && IsPresent(routeId) && api.conversationById(routeId.value).Ok? && api.messagesOf(routeId.value).Ok?
              && api.userById(Messages.CounterpartId(api.conversationById(routeId.value).payload, me)).Ok?
              ==> !ShowsFallback()
      ensures me.Some? ==>
        var (res, resolveLog) := ResolutionOf(routeId, gigId, me, api);
        if !res.Resolved? then
          log == resolveLog && conversation == old(conversation) && otherUser == old(otherUser)
        else
          var id := res.id;
          var conv := api.conversationById(id);
          if conv.Ok? && api.messagesOf(id).Ok? then
            var otherId := Messages.CounterpartId(conv.payload, me);
            && log == resolveLog + [GetConversation(id), GetMessages(id), GetUser(otherId)]
            && conversation == Some(conv.payload)
            && otherUser == (if api.userById(otherId).Ok? then Some(api.userById(otherId).payload) else old(otherUser))
          else
            && log == resolveLog + [GetConversation(id), GetMessages(id)]
            && conversation == old(conversation) && otherUser == old(otherUser)
    {
      if me.None? {
        return [];
      }
      var res;
      res, log := ResolveConversationId(routeId, gigId, me, api);
      if res.Resolved? {
        var id := res.id;
        log := log + [GetConversation(id), GetMessages(id)];
        var conversationResponse := api.conversationById(id);
        var messagesResponse := api.messagesOf(id);
        if conversationResponse.Ok? && messagesResponse.Ok? {
          var c := conversationResponse.payload;
          conversation := Some(c);
          var otherUserId := Messages.CounterpartId(c, me);
          log := log + [GetUser(otherUserId)];
          var userResponse := api.userById(otherUserId);
          if userResponse.Ok? {
            otherUser := Some(userResponse.payload);
          }
        }
      }
      loading := false;
    }

    /** The "Start Chat" button, drawn on the fallback screen only with a gig id and
        a signed-in user: it creates a conversation with the gig's owner, without a
        lookup, and sends the browser to it. */
    method StartChat(gigId: Option<string>, me: Option<User>, api: Api)
      returns (target: Option<string>, log: seq<Request>)
      requires StartChatOffered(gigId, me)
      ensures |log| >= 1 && log[0] == GetGig(gigId.value)
      ensures api.gigById(gigId.value).Fail? ==> target == None && log == [GetGig(gigId.value)]
      ensures api.gigById(gigId.value).Ok? ==>
        var to := api.gigById(gigId.value).payload.userId;
        && log == [GetGig(gigId.value), CreateConversation(to)]
        && target == if api.createConversation(to).Ok? then Some(api.createConversation(to).payload.id) else None
    {
      log := [GetGig(gigId.value)];
      var gigResponse := api.gigById(gigId.value);
      if gigResponse.Fail? {
        return None, log;
      }
      var to := gigResponse.payload.userId;
      log := log + [CreateConversation(to)];
      var newConversation := api.createConversation(to);
      target := if newConversation.Ok? then Some(newConversation.payload.id) else None;
    }
  }
}
