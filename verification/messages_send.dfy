/**
 * The `messages.send` request builder: its fields, the ordered key/value
 * list it hands to the HTTP layer, and the attachment references
 * ("photo<owner>_<id>[_<access key>]") it accumulates.
 */
module MessagesSendMethod {
  import opened JavaLang

  /** A java.lang.Float, kept as its raw IEEE-754 bits: the model never computes with it. */
  datatype Float = Float(bits: bv32)

  /** The media objects a message can reference (their getters, as values). */
  datatype Photo = Photo(ownerId: Option<Int32>, id: Option<Int32>, accessKey: Option<string>)
  datatype Doc = Doc(ownerId: Option<Int32>, id: Option<Int32>, accessKey: Option<string>)

  /** The three parts an attachment reference is built from. */
  datatype MediaRef = MediaRef(ownerId: Option<Int32>, mediaId: Option<Int32>, accessKey: Option<string>)

  const PHOTO_TYPE: string := "photo"
  const DOC_TYPE: string := "doc"

  /**
   * The reference string `attachment(type, ownerId, mediaId, accessKey)`
   * builds. It carries its parts without loss: reading it back gives the
   * owner id and the media id exactly, and the access key exactly, present
   * (as "_" + key) when it was non-null and absent otherwise.
   */
  function AttachmentRef(kind: string, ownerId: Option<Int32>, mediaId: Option<Int32>, accessKey: Option<string>): (s: string)
    ensures ParseAttachmentRef(kind, s) == Some(MediaRef(ownerId, mediaId, accessKey))
  {
    var body := IdsAndKey(ownerId, mediaId, accessKey);
    IdsAndKeyRoundTrip(ownerId, mediaId, accessKey);
    assert (kind + body)[..|kind|] == kind;
    assert (kind + body)[|kind|..] == body;
    kind + body
  }

  /** "<owner>_<media>", then "_<key>" when the access key is non-null. */
  function IdsAndKey(ownerId: Option<Int32>, mediaId: Option<Int32>, accessKey: Option<string>): string {
    IntegerToString(ownerId) + "_" + MediaAndKey(mediaId, accessKey)
  }

  function MediaAndKey(mediaId: Option<Int32>, accessKey: Option<string>): string {
    IntegerToString(mediaId) + (if accessKey.None? then "" else "_" + accessKey.value)
  }

  /**
   * Reads a reference of the given type back into its parts. Owner and media
   * id are decimal (or "null") and so hold no '_'; whatever follows a second
   * '_' is the access key.
   */
  function ParseAttachmentRef(kind: string, s: string): Option<MediaRef> {
    if |s| < |kind| || s[..|kind|] != kind then None else ParseIdsAndKey(s[|kind|..])
  }

  /** Reads "<owner>_<media>[_<key>]". */
  function ParseIdsAndKey(s: string): Option<MediaRef> {
    match IndexOf(s, '_')
    case None => None
    case Some(i) =>
      match (ParseInteger(s[..i]), ParseMediaAndKey(s[i + 1..]))
      case (Some(owner), Some((media, key))) => Some(MediaRef(owner, media, key))
      case _ => None
  }

  /** Reads "<media>[_<key>]". */
  function ParseMediaAndKey(s: string): Option<(Option<Int32>, Option<string>)> {
    match IndexOf(s, '_')
    case None =>
      (match ParseInteger(s)
       case None => None
       case Some(media) => Some((media, None)))
    case Some(j) =>
      (match ParseInteger(s[..j])
       case None => None
       case Some(media) => Some((media, Some(s[j + 1..]))))
  }

  lemma MediaAndKeyRoundTrip(mediaId: Option<Int32>, accessKey: Option<string>)
    ensures ParseMediaAndKey(MediaAndKey(mediaId, accessKey)) == Some((mediaId, accessKey))
  {
    var ms := IntegerToString(mediaId);
    IntegerToStringRoundTrip(mediaId);
    if accessKey.Some? {
      var t := MediaAndKey(mediaId, accessKey);
      assert t == ms + ['_'] + accessKey.value;
      IndexOfAfter(ms, '_', accessKey.value);
      assert t[..|ms|] == ms;
      assert t[|ms| + 1..] == accessKey.value;
    } else {
      assert MediaAndKey(mediaId, accessKey) == ms;
    }
  }

  lemma IdsAndKeyRoundTrip(ownerId: Option<Int32>, mediaId: Option<Int32>, accessKey: Option<string>)
    ensures ParseIdsAndKey(IdsAndKey(ownerId, mediaId, accessKey)) == Some(MediaRef(ownerId, mediaId, accessKey))
  {
    var os := IntegerToString(ownerId);
    var tail := MediaAndKey(mediaId, accessKey);
    var s := IdsAndKey(ownerId, mediaId, accessKey);
    assert s == os + ['_'] + tail;
    IndexOfAfter(os, '_', tail);
    assert s[..|os|] == os;
    assert s[|os| + 1..] == tail;
    IntegerToStringRoundTrip(ownerId);
    MediaAndKeyRoundTrip(mediaId, accessKey);
  }

  /** Two attachments of one type with the same reference string have the same parts. */
  lemma AttachmentRefInjective(kind: string, a: MediaRef, b: MediaRef)
    requires AttachmentRef(kind, a.ownerId, a.mediaId, a.accessKey)
          == AttachmentRef(kind, b.ownerId, b.mediaId, b.accessKey)
    ensures a == b
  {
    var ra := AttachmentRef(kind, a.ownerId, a.mediaId, a.accessKey);
    var rb := AttachmentRef(kind, b.ownerId, b.mediaId, b.accessKey);
    assert ParseAttachmentRef(kind, ra) == Some(a) && ParseAttachmentRef(kind, rb) == Some(b);
  }

  /** The value argument of one `keyVal(...)` call, with its Java static type. */
  datatype ParamValue =
    | IntegerArg(i: Option<Int32>)
    | StringArg(s: Option<string>)
    | FloatArg(f: Option<Float>)
    | BooleanArg(b: Option<bool>)
    | IntegerListArg(ints: Option<seq<Int32>>)
    | StringListArg(strings: Option<seq<string>>)

  /**
   * One `keyVal(key, value)` call, or `keyVal(key, value, true)` when
   * flagArgument holds. What the base class does with the flag and with null
   * values is not part of this model, so the call is kept as it is written.
   */
  datatype KeyVal = KeyVal(key: string, value: ParamValue, flagArgument: bool)

  /** Every field of a MessagesSend object. */
  datatype SendState = SendState(
    userId: Option<Int32>,
    randomId: Option<Int32>,
    peerId: Option<Int32>,
    domain: Option<string>,
    chatId: Option<Int32>,
    userIds: Option<seq<Int32>>,
    message: Option<string>,
    latitude: Option<Float>,
    longitude: Option<Float>,
    attachments: Option<seq<string>>,
    replyTo: Option<Int32>,
    forwardMessages: Option<seq<Int32>>,
    stickerId: Option<Int32>,
    dontParseLinks: Option<bool>,
    disableMentions: Option<bool>)

  const EMITTED_KEYS: seq<string> := [
    "user_id", "random_id", "peer_id", "domain", "user_ids", "user_ids", "message",
    "lat", "long", "attachment", "reply_to", "forward_messages", "sticker_id",
    "dont_parse_links", "disable_mentions"]

  /**
   * The key/value stream `getKeyValStream` produces, in order. Its keys are
   * EMITTED_KEYS; only the last two carry the flag argument; no key is
   * "chat_id". userId is passed twice, under "user_id" and under the first
   * "user_ids"; the fields whose key differs from their name (userIds,
   * latitude, longitude, attachments, forwardMessages) land under "user_ids",
   * "lat", "long", "attachment" and "forward_messages".
   */
  function KeyVals(s: SendState): (r: seq<KeyVal>)
    ensures |r| == |EMITTED_KEYS|
    ensures forall i :: 0 <= i < |r| ==> r[i].key == EMITTED_KEYS[i]
    ensures forall i :: 0 <= i < |r| ==> (r[i].flagArgument <==> i >= |r| - 2)
    ensures forall i :: 0 <= i < |r| ==> r[i].key != "chat_id"
    ensures r[0].value == r[4].value == IntegerArg(s.userId)
    ensures r[1].value == IntegerArg(s.randomId) && r[2].value == IntegerArg(s.peerId)
    ensures r[3].value == StringArg(s.domain) && r[6].value == StringArg(s.message)
    ensures r[5].value == IntegerListArg(s.userIds)
    ensures r[7].value == FloatArg(s.latitude) && r[8].value == FloatArg(s.longitude)
    ensures r[9].value == StringListArg(s.attachments)
    ensures r[10].value == IntegerArg(s.replyTo) && r[12].value == IntegerArg(s.stickerId)
    ensures r[11].value == IntegerListArg(s.forwardMessages)
    ensures r[13].value == BooleanArg(s.dontParseLinks) && r[14].value == BooleanArg(s.disableMentions)
  {
    [ KeyVal("user_id", IntegerArg(s.userId), false),
      KeyVal("random_id", IntegerArg(s.randomId), false),
      KeyVal("peer_id", IntegerArg(s.peerId), false),
      KeyVal("domain", StringArg(s.domain), false),
      KeyVal("user_ids", IntegerArg(s.userId), false),
      KeyVal("user_ids", IntegerListArg(s.userIds), false),
      KeyVal("message", StringArg(s.message), false),
      KeyVal("lat", FloatArg(s.latitude), false),
      KeyVal("long", FloatArg(s.longitude), false),
      KeyVal("attachment", StringListArg(s.attachments), false),
      KeyVal("reply_to", IntegerArg(s.replyTo), false),
      KeyVal("forward_messages", IntegerListArg(s.forwardMessages), false),
      KeyVal("sticker_id", IntegerArg(s.stickerId), false),
      KeyVal("dont_parse_links", BooleanArg(s.dontParseLinks), true),
      KeyVal("disable_mentions", BooleanArg(s.disableMentions), true) ]
  }

  /**
   * The stream determines every field except chatId, and chatId never
   * affects it: two builders emit the same stream exactly when they agree
   * on everything but chatId.
   */
  lemma KeyValsDetermineAllButChatId(s: SendState, t: SendState)
    ensures KeyVals(s) == KeyVals(t) <==> s.(chatId := None) == t.(chatId := None)
  {
  }

  /**
   * userId is passed to `keyVal` twice and reaches no other entry: changing
   * only userId changes exactly the "user_id" entry and the first "user_ids"
   * entry.
   */
  lemma UserIdSentTwice(s: SendState, u: Option<Int32>)
    requires u != s.userId
    ensures forall i :: 0 <= i < |EMITTED_KEYS| ==>
      (KeyVals(s.(userId := u))[i] != KeyVals(s)[i] <==> i == 0 || i == 4)
  {
  }

  /** The id messages.send is given when none is set: the clock's low 32 bits. */
  function DefaultRandomId(nowMillis: Int64): (r: Int32)
    ensures (nowMillis - r) % 0x1_0000_0000 == 0
  {
    LongIntValue(nowMillis)
  }

  /** The messages.send builder; every field is a nullable Java reference. */
  class MessagesSend {
    var userId: Option<Int32>
    var randomId: Option<Int32>
    var peerId: Option<Int32>
    var domain: Option<string>
    var chatId: Option<Int32>
    var userIds: Option<seq<Int32>>
    var message: Option<string>
    var latitude: Option<Float>
    var longitude: Option<Float>
    var attachments: Option<seq<string>>
    var replyTo: Option<Int32>
    var forwardMessages: Option<seq<Int32>>
    var stickerId: Option<Int32>
    var dontParseLinks: Option<bool>
    var disableMentions: Option<bool>

    function State(): SendState
      reads this
    {
      SendState(userId, randomId, peerId, domain, chatId, userIds, message, latitude, longitude,
                attachments, replyTo, forwardMessages, stickerId, dontParseLinks, disableMentions)
    }

    /** A new builder: every field null except randomId, taken from the clock. */
    constructor (nowMillis: Int64)
      ensures State() == SendState(None, Some(DefaultRandomId(nowMillis)), None, None, None, None, None,
                                   None, None, None, None, None, None, None, None)
    {
      userId, peerId, domain, chatId, userIds, message := None, None, None, None, None, None;
      latitude, longitude, attachments, replyTo, forwardMessages := None, None, None, None, None;
      stickerId, dontParseLinks, disableMentions := None, None, None;
      randomId := Some(DefaultRandomId(nowMillis));
    }

    /** The parameters this builder sends, in the order they are sent. */
    method GetKeyValStream() returns (kvs: seq<KeyVal>)
      ensures kvs == KeyVals(State())
    {
      kvs := KeyVals(State());
    }

    /** Adds one attachment reference, creating the list first if it is null. */
    method Attach(kind: string, ownerId: Option<Int32>, mediaId: Option<Int32>, accessKey: Option<string>)
      returns (r: MessagesSend)
      modifies this
      ensures r == this
      ensures State() == old(State()).(attachments :=
                Some(old(attachments).GetOr([]) + [AttachmentRef(kind, ownerId, mediaId, accessKey)]))
    {
      if attachments.None? {
        attachments := Some([]);
      }
      attachments := Some(attachments.value + [AttachmentRef(kind, ownerId, mediaId, accessKey)]);
      r := this;
    }

    method AttachPhoto(photo: Photo) returns (r: MessagesSend)
      modifies this
      ensures r == this
      ensures State() == old(State()).(attachments :=
                Some(old(attachments).GetOr([]) + [AttachmentRef(PHOTO_TYPE, photo.ownerId, photo.id, photo.accessKey)]))
    {
      r := Attach(PHOTO_TYPE, photo.ownerId, photo.id, photo.accessKey);
    }

    method AttachDoc(doc: Doc) returns (r: MessagesSend)
      modifies this
      ensures r == this
      ensures State() == old(State()).(attachments :=
                Some(old(attachments).GetOr([]) + [AttachmentRef(DOC_TYPE, doc.ownerId, doc.id, doc.accessKey)]))
    {
      r := Attach(DOC_TYPE, doc.ownerId, doc.id, doc.accessKey);
    }

    method GetUserId() returns (v: Option<Int32>)
      ensures v == userId
    {
      v := userId;
    }

    method SetUserId(v: Option<Int32>) returns (r: MessagesSend)
      modifies this
      ensures r == this && State() == old(State()).(userId := v)
    {
      userId := v;
      r := this;
    }

    method GetRandomId() returns (v: Option<Int32>)
      ensures v == randomId
    {
      v := randomId;
    }

    method SetRandomId(v: Option<Int32>) returns (r: MessagesSend)
      modifies this
      ensures r == this && State() == old(State()).(randomId := v)
    {
      randomId := v;
      r := this;
    }

    method GetPeerId() returns (v: Option<Int32>)
      ensures v == peerId
    {
      v := peerId;
    }

    method SetPeerId(v: Option<Int32>) returns (r: MessagesSend)
      modifies this
      ensures r == this && State() == old(State()).(peerId := v)
    {
      peerId := v;
      r := this;
    }

    method GetDomain() returns (v: Option<string>)
      ensures v == domain
    {
      v := domain;
    }

    method SetDomain(v: Option<string>) returns (r: MessagesSend)
      modifies this
      ensures r == this && State() == old(State()).(domain := v)
    {
      domain := v;
      r := this;
    }

    method GetChatId() returns (v: Option<Int32>)
      ensures v == chatId
    {
      v := chatId;
    }

    method SetChatId(v: Option<Int32>) returns (r: MessagesSend)
      modifies this
      ensures r == this && State() == old(State()).(chatId := v)
    {
      chatId := v;
      r := this;
    }

    method GetUserIds() returns (v: Option<seq<Int32>>)
      ensures v == userIds
    {
      v := userIds;
    }

    method SetUserIds(v: Option<seq<Int32>>) returns (r: MessagesSend)
      modifies this
      ensures r == this && State() == old(State()).(userIds := v)
    {
      userIds := v;
      r := this;
    }

    method GetMessage() returns (v: Option<string>)
      ensures v == message
    {
      v := message;
    }

    method SetMessage(v: Option<string>) returns (r: MessagesSend)
      modifies this
      ensures r == this && State() == old(State()).(message := v)
    {
      message := v;
      r := this;
    }

    method GetLatitude() returns (v: Option<Float>)
      ensures v == latitude
    {
      v := latitude;
    }

    method SetLatitude(v: Option<Float>) returns (r: MessagesSend)
      modifies this
      ensures r == this && State() == old(State()).(latitude := v)
    {
      latitude := v;
      r := this;
    }

    method GetLongitude() returns (v: Option<Float>)
      ensures v == longitude
    {
      v := longitude;
    }

    method SetLongitude(v: Option<Float>) returns (r: MessagesSend)
      modifies this
      ensures r == this && State() == old(State()).(longitude := v)
    {
      longitude := v;
      r := this;
    }

    method GetAttachments() returns (v: Option<seq<string>>)
      ensures v == attachments
    {
      v := attachments;
    }

    method SetAttachments(v: Option<seq<string>>) returns (r: MessagesSend)
      modifies this
      ensures r == this && State() == old(State()).(attachments := v)
    {
      attachments := v;
      r := this;
    }

    method GetReplyTo() returns (v: Option<Int32>)
      ensures v == replyTo
    {
      v := replyTo;
    }

    method SetReplyTo(v: Option<Int32>) returns (r: MessagesSend)
      modifies this
      ensures r == this && State() == old(State()).(replyTo := v)
    {
      replyTo := v;
      r := this;
    }

    method GetForwardMessages() returns (v: Option<seq<Int32>>)
      ensures v == forwardMessages
    {
      v := forwardMessages;
    }

    method SetForwardMessages(v: Option<seq<Int32>>) returns (r: MessagesSend)
      modifies this
      ensures r == this && State() == old(State()).(forwardMessages := v)
    {
      forwardMessages := v;
      r := this;
    }

    method GetStickerId() returns (v: Option<Int32>)
      ensures v == stickerId
    {
      v := stickerId;
    }

    method SetStickerId(v: Option<Int32>) returns (r: MessagesSend)
      modifies this
      ensures r == this && State() == old(State()).(stickerId := v)
    {
      stickerId := v;
      r := this;
    }

    method GetDontParseLinks() returns (v: Option<bool>)
      ensures v == dontParseLinks
    {
      v := dontParseLinks;
    }

    method SetDontParseLinks(v: Option<bool>) returns (r: MessagesSend)
      modifies this
      ensures r == this && State() == old(State()).(dontParseLinks := v)
    {
      dontParseLinks := v;
      r := this;
    }

    method GetDisableMentions() returns (v: Option<bool>)
      ensures v == disableMentions
    {
      v := disableMentions;
    }

    method SetDisableMentions(v: Option<bool>) returns (r: MessagesSend)
      modifies this
      ensures r == this && State() == old(State()).(disableMentions := v)
    {
      disableMentions := v;
      r := this;
    }
  }
}
