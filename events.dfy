/**
 * The message vocabulary of the real-time channel (src/types/ws.ts).
 *
 * On the wire every frame is a record `{type, data?}`; the event union names
 * five shapes of it. `data` is modelled as a map from field name to string
 * value, which is what every field of every declared shape is.
 */
module Events {
  import opened Wrappers

  /** The generic record `WebSocketMessage` as it arrives, already parsed. */
  datatype WsMessage = WsMessage(kind: string, data: Option<map<string, string>>)

  datatype PostAction = Create | Update | Delete

  datatype LikeAction = Like | Unlike

  /** The union `WebSocketEventMessage`, one constructor per interface. */
  datatype EventMessage =
    | Ping
    | Pong
    | PostUpdate(postId: string, action: PostAction)
    | CommentUpdate(postId: string, commentId: string, action: PostAction)
    | LikeUpdate(postId: string, userId: string, likeAction: LikeAction)

  function PostActionName(a: PostAction): string
  {
    match a
    case Create => "create"
    case Update => "update"
    case Delete => "delete"
  }

  function LikeActionName(a: LikeAction): string
  {
    match a
    case Like => "like"
    case Unlike => "unlike"
  }

  function ParsePostAction(s: string): (r: Option<PostAction>)
    ensures r.Some? <==> s in {"create", "update", "delete"}
    ensures r.Some? ==> PostActionName(r.value) == s
  {
    if s == "create" then Some(Create)
    else if s == "update" then Some(Update)
    else if s == "delete" then Some(Delete)
    else None
  }

  function ParseLikeAction(s: string): (r: Option<LikeAction>)
    ensures r.Some? <==> s in {"like", "unlike"}
    ensures r.Some? ==> LikeActionName(r.value) == s
  {
    if s == "like" then Some(Like)
    else if s == "unlike" then Some(Unlike)
    else None
  }

  /** The `type` tag each interface fixes. */
  function Tag(e: EventMessage): string
  {
    match e
    case Ping => "ping"
    case Pong => "pong"
    case PostUpdate(_, _) => "post_update"
    case CommentUpdate(_, _, _) => "comment_update"
    case LikeUpdate(_, _, _) => "like_update"
  }

  /** The record an event is sent as. */
  function Encode(e: EventMessage): (r: WsMessage)
    ensures r.kind == Tag(e)
    ensures IsEventMessage(r)
  {
    match e
    case Ping => WsMessage("ping", None)
    case Pong => WsMessage("pong", None)
    case PostUpdate(p, a) =>
      WsMessage("post_update", Some(map["post_id" := p, "action" := PostActionName(a)]))
    case CommentUpdate(p, c, a) =>
      WsMessage("comment_update", Some(map["post_id" := p, "comment_id" := c, "action" := PostActionName(a)]))
    case LikeUpdate(p, u, a) =>
      WsMessage("like_update", Some(map["post_id" := p, "user_id" := u, "action" := LikeActionName(a)]))
  }

  /**
   * Reads a record as one of the five events; a record of no declared shape
   * gives None. Fields beyond the declared ones are ignored, as structural
   * typing allows them.
   */
  function Decode(m: WsMessage): (r: Option<EventMessage>)
    ensures r.Some? <==> IsEventMessage(m)
    ensures r.Some? ==> Tag(r.value) == m.kind
  {
    if m.kind == "ping" then Some(Ping)
    else if m.kind == "pong" then Some(Pong)
    else if m.data.None? then None
    else
      var d := m.data.value;
      if m.kind == "post_update" then
        if "post_id" in d && "action" in d && ParsePostAction(d["action"]).Some? then
          Some(PostUpdate(d["post_id"], ParsePostAction(d["action"]).value))
        else None
      else if m.kind == "comment_update" then
        if "post_id" in d && "comment_id" in d && "action" in d && ParsePostAction(d["action"]).Some? then
          Some(CommentUpdate(d["post_id"], d["comment_id"], ParsePostAction(d["action"]).value))
        else None
      else if m.kind == "like_update" then
        if "post_id" in d && "user_id" in d && "action" in d && ParseLikeAction(d["action"]).Some? then
          Some(LikeUpdate(d["post_id"], d["user_id"], ParseLikeAction(d["action"]).value))
        else None
      else None
  }

  // One predicate per interface: the record conforms to it.

  predicate IsPing(m: WsMessage) { m.kind == "ping" }

  predicate IsPong(m: WsMessage) { m.kind == "pong" }

  predicate IsPostUpdate(m: WsMessage)
  {
    && m.kind == "post_update" && m.data.Some?
    && "post_id" in m.data.value
    && "action" in m.data.value && m.data.value["action"] in {"create", "update", "delete"}
  }

  predicate IsCommentUpdate(m: WsMessage)
  {
    && m.kind == "comment_update" && m.data.Some?
    && "post_id" in m.data.value && "comment_id" in m.data.value
    && "action" in m.data.value && m.data.value["action"] in {"create", "update", "delete"}
  }

  predicate IsLikeUpdate(m: WsMessage)
  {
    && m.kind == "like_update" && m.data.Some?
    && "post_id" in m.data.value && "user_id" in m.data.value
    && "action" in m.data.value && m.data.value["action"] in {"like", "unlike"}
  }

  /** The record has the shape of some member of `WebSocketEventMessage`. */
  predicate IsEventMessage(m: WsMessage)
  {
    IsPing(m) || IsPong(m) || IsPostUpdate(m) || IsCommentUpdate(m) || IsLikeUpdate(m)
  }

  /** The heartbeat payload `{type: 'ping'}`. */
  const HeartbeatMessage: WsMessage := WsMessage("ping", None)

  /** An event message's tag is one of the five, and ping/pong need no data. */
  lemma EventMessageTag(m: WsMessage)
    ensures IsEventMessage(m) ==>
      m.kind in {"ping", "pong", "post_update", "comment_update", "like_update"}
    ensures m.kind in {"ping", "pong"} ==> IsEventMessage(m)
  {
  }

  /** Every event, sent as a record, conforms and reads back as itself. */
  lemma DecodeEncode(e: EventMessage)
    ensures IsEventMessage(Encode(e))
    ensures Encode(e).kind == Tag(e)
    ensures Decode(Encode(e)) == Some(e)
  {
    match e
    case Ping =>
    case Pong =>
    case PostUpdate(p, a) =>
    case CommentUpdate(p, c, a) =>
    case LikeUpdate(p, u, a) =>
  }

  /**
   * A decoded record carries the event's tag, and every field the event
   * defines is present in the record with the same value.
   */
  lemma EncodeDecode(m: WsMessage, e: EventMessage)
    requires Decode(m) == Some(e)
    ensures Encode(e).kind == m.kind
    ensures Encode(e).data.Some? ==> m.data.Some? && Encode(e).data.value.Items <= m.data.value.Items
  {
  }

  /** The heartbeat the client sends is a well-formed ping. */
  lemma HeartbeatIsPing()
    ensures IsEventMessage(HeartbeatMessage)
    ensures Decode(HeartbeatMessage) == Some(Ping)
  {
  }
}
