/**
 * The `messages.markAsAnsweredConversation` request: fluent setters that
 * append named parameters to the request's parameter list.
 */
module MarkAsAnsweredMethod {
  import opened JavaLang

  /** Key under which the request URI is found in the bot-method table. */
  const URI_PROPERTY: string := "messages.markAsAnsweredConversation"

  /** A parameter value as passed to addParam: every setter passes an int. */
  datatype ParamValue = IntValue(i: Int32)

  /** `answered ? 1 : 0`: the wire form of the flag, always one of 0 and 1. */
  function AnsweredCode(answered: bool): (code: Int32)
    ensures code == 0 || code == 1
    ensures code == 1 <==> answered
  {
    if answered then 1 else 0
  }

  /** The URI: the bot-method table's entry for URI_PROPERTY, null when it has none. */
  function Uri(botMethods: map<string, string>): (r: Option<string>)
    ensures r.Some? <==> URI_PROPERTY in botMethods
    ensures r.Some? ==> r.value == botMethods[URI_PROPERTY]
  {
    if URI_PROPERTY in botMethods then Some(botMethods[URI_PROPERTY]) else None
  }

  class MarkAsAnsweredConversation {
    const accessToken: string
    /** The inherited parameter collection, in the order parameters were added. */
    var params: seq<(string, ParamValue)>

    constructor (accessToken: string)
      ensures this.accessToken == accessToken && params == []
    {
      this.accessToken := accessToken;
      params := [];
    }

    method AddParam(key: string, value: ParamValue) returns (r: MarkAsAnsweredConversation)
      modifies this
      ensures r == this
      ensures params == old(params) + [(key, value)]
    {
      params := params + [(key, value)];
      r := this;
    }

    method SetPeerId(peerId: Int32) returns (r: MarkAsAnsweredConversation)
      modifies this
      ensures r == this
      ensures params == old(params) + [("peer_id", IntValue(peerId))]
    {
      r := AddParam("peer_id", IntValue(peerId));
    }

    /** Adds "answered" for either value of the flag: 1 for true, 0 for false. */
    method SetAnswered(answered: bool) returns (r: MarkAsAnsweredConversation)
      modifies this
      ensures r == this
      ensures params == old(params) + [("answered", IntValue(AnsweredCode(answered)))]
    {
      r := AddParam("answered", IntValue(if answered then 1 else 0));
    }

    method SetGroupId(groupId: Int32) returns (r: MarkAsAnsweredConversation)
      modifies this
      ensures r == this
      ensures params == old(params) + [("group_id", IntValue(groupId))]
    {
      r := AddParam("group_id", IntValue(groupId));
    }
  }

  /**
   * A fluent chain on a new request: every setter returns the same object,
   * so the three parameters land on it in call order, "answered" included
   * whatever its value.
   */
  method MarkAnswered(accessToken: string, peerId: Int32, answered: bool, groupId: Int32)
    returns (request: MarkAsAnsweredConversation)
    ensures request.params == [("peer_id", IntValue(peerId)),
                               ("answered", IntValue(AnsweredCode(answered))),
                               ("group_id", IntValue(groupId))]
  {
    request := new MarkAsAnsweredConversation(accessToken);
    var r := request.SetPeerId(peerId);
    r := r.SetAnswered(answered);
    r := r.SetGroupId(groupId);
  }
}
