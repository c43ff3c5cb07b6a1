/**
 * Decoding of a `groups.getMembers` response. The server answers either
 * with bare member ids or with member objects, depending on the request;
 * the decoder tells the two apart by looking at the first element of
 * `response.items` only.
 */
module GroupsGetMemberResponse {
  import opened JavaLang

  /** A parsed JSON value. Numbers are the integral ones this response carries. */
  datatype Json =
    | JNull
    | JBool(b: bool)
    | JNumber(n: int)
    | JString(s: string)
    | JArray(elems: seq<Json>)
    | JObject(members: map<string, Json>)

  /** Gson's isJsonPrimitive(): booleans, numbers and strings (not null, arrays or objects). */
  predicate IsJsonPrimitive(j: Json) {
    j.JBool? || j.JNumber? || j.JString?
  }

  predicate IsInt32Number(j: Json) {
    j.JNumber? && -0x8000_0000 <= j.n < 0x8000_0000
  }

  /** One member object; its fields are kept as the JSON object they came from. */
  datatype Item = Item(fields: map<string, Json>)

  /** The two list types the decoder chooses between. */
  datatype Shape = IntegerListShape | ItemListShape

  datatype Members = IntegerList(ids: seq<Int32>) | ItemList(items: seq<Item>) {
    function Size(): nat {
      match this
      case IntegerList(ids) => |ids|
      case ItemList(items) => |items|
    }
  }

  datatype VkList = VkList(count: Int32, items: Members)

  /** GetMembers.ResponseBody: wraps exactly one list. */
  datatype ResponseBody = ResponseBody(response: VkList)

  /** The exception each malformed input raises, in the order the code meets them. */
  datatype DecodeError =
    | NotAnObject          // getAsJsonObject() on a non-object
    | MissingResponse      // "response" absent: null dereference
    | ResponseNotAnObject  // "response" present but not an object
    | ItemsNotAnArray      // "items" present but not an array
    | MissingCount         // "count" absent: null dereference
    | CountNotAnInt        // getAsInt() fails on "count"
    | MissingItems         // "items" absent: null dereference at size()
    | ElementNotAnInt      // the integer list holds a non-int element
    | ElementNotAnObject   // the item list holds a non-object element

  /** The target list type: integers when the array is empty or starts with a primitive. */
  function ChooseShape(items: seq<Json>): (shape: Shape)
    ensures shape == ItemListShape <==> |items| > 0 && (items[0].JObject? || items[0].JArray? || items[0].JNull?)
  {
    if |items| == 0 || IsJsonPrimitive(items[0]) then IntegerListShape else ItemListShape
  }

  /** Only the first element can influence the choice. */
  lemma ShapeDependsOnFirstOnly(a: seq<Json>, b: seq<Json>)
    requires |a| == 0 <==> |b| == 0
    requires |a| > 0 ==> a[0] == b[0]
    ensures ChooseShape(a) == ChooseShape(b)
  {
  }

  function DecodeIntegers(elems: seq<Json>): (r: Result<seq<Int32>, DecodeError>)
    ensures r.Ok? <==> forall i :: 0 <= i < |elems| ==> IsInt32Number(elems[i])
    ensures r.Ok? ==> |r.value| == |elems| && forall i :: 0 <= i < |elems| ==> elems[i] == JNumber(r.value[i])
    ensures r.Err? ==> r.error == ElementNotAnInt
  {
    if |elems| == 0 then Ok([])
    else if !IsInt32Number(elems[0]) then Err(ElementNotAnInt)
    else
      match DecodeIntegers(elems[1..])
      case Err(e) => Err(e)
      case Ok(rest) => Ok([elems[0].n as Int32] + rest)
  }

  function DecodeItems(elems: seq<Json>): (r: Result<seq<Item>, DecodeError>)
    ensures r.Ok? <==> forall i :: 0 <= i < |elems| ==> elems[i].JObject?
    ensures r.Ok? ==> |r.value| == |elems| && forall i :: 0 <= i < |elems| ==> elems[i] == JObject(r.value[i].fields)
    ensures r.Err? ==> r.error == ElementNotAnObject
  {
    if |elems| == 0 then Ok([])
    else if !elems[0].JObject? then Err(ElementNotAnObject)
    else
      match DecodeItems(elems[1..])
      case Err(e) => Err(e)
      case Ok(rest) => Ok([Item(elems[0].members)] + rest)
  }

  /**
   * `context.deserialize(items, type)` for the chosen list type: it succeeds
   * exactly when every element fits that type, and then keeps every element,
   * in order.
   */
  function DecodeMembers(elems: seq<Json>, shape: Shape): (r: Result<Members, DecodeError>)
    ensures r.Ok? <==> if shape == IntegerListShape then forall i :: 0 <= i < |elems| ==> IsInt32Number(elems[i])
                       else forall i :: 0 <= i < |elems| ==> elems[i].JObject?
    ensures r.Ok? ==> (r.value.IntegerList? <==> shape == IntegerListShape) && r.value.Size() == |elems|
    ensures r.Ok? && r.value.IntegerList? ==> forall i :: 0 <= i < |elems| ==> elems[i] == JNumber(r.value.ids[i])
    ensures r.Ok? && r.value.ItemList? ==> forall i :: 0 <= i < |elems| ==> elems[i] == JObject(r.value.items[i].fields)
    ensures r.Err? ==> r.error == if shape == IntegerListShape then ElementNotAnInt else ElementNotAnObject
  {
    match shape
    case IntegerListShape =>
      (match DecodeIntegers(elems)
       case Ok(ids) => Ok(IntegerList(ids))
       case Err(e) => Err(e))
    case ItemListShape =>
      (match DecodeItems(elems)
       case Ok(items) => Ok(ItemList(items))
       case Err(e) => Err(e))
  }

  /** `{"response": {"count": <int>, "items": [...]}}`, with the right member types. */
  predicate HasEnvelope(j: Json) {
    && j.JObject?
    && "response" in j.members && j.members["response"].JObject?
    && "items" in j.members["response"].members
    && j.members["response"].members["items"].JArray?
    && "count" in j.members["response"].members
    && IsInt32Number(j.members["response"].members["count"])
  }

  function ItemsOf(j: Json): seq<Json>
    requires HasEnvelope(j)
  {
    j.members["response"].members["items"].elems
  }

  function CountOf(j: Json): Int32
    requires HasEnvelope(j)
  {
    j.members["response"].members["count"].n
  }

  /**
   * `deserialize`: the count is copied as it is; the items become an integer
   * list exactly when the array is empty or its first element is a JSON
   * primitive, and an item list otherwise.
   */
  function Deserialize(j: Json): (r: Result<ResponseBody, DecodeError>)
    ensures !HasEnvelope(j) ==> r.Err?
    ensures r.Ok? ==> r.value.response.count == CountOf(j)
    ensures r.Ok? ==> r.value.response.items.Size() == |ItemsOf(j)|
    ensures r.Ok? ==> (r.value.response.items.IntegerList?
                       <==> |ItemsOf(j)| == 0 || IsJsonPrimitive(ItemsOf(j)[0]))
    ensures HasEnvelope(j) ==>
      (r.Ok? <==> if ChooseShape(ItemsOf(j)) == IntegerListShape
                  then forall i :: 0 <= i < |ItemsOf(j)| ==> IsInt32Number(ItemsOf(j)[i])
                  else forall i :: 0 <= i < |ItemsOf(j)| ==> ItemsOf(j)[i].JObject?)
    ensures r.Ok? && r.value.response.items.IntegerList? ==>
      forall i :: 0 <= i < |ItemsOf(j)| ==> ItemsOf(j)[i] == JNumber(r.value.response.items.ids[i])
    ensures r.Ok? && r.value.response.items.ItemList? ==>
      forall i :: 0 <= i < |ItemsOf(j)| ==> ItemsOf(j)[i] == JObject(r.value.response.items.items[i].fields)
    ensures r.Err? ==> (HasEnvelope(j) <==> r.error == ElementNotAnInt || r.error == ElementNotAnObject)
  {
    if !j.JObject? then Err(NotAnObject)
    else if "response" !in j.members then Err(MissingResponse)
    else if !j.members["response"].JObject? then Err(ResponseNotAnObject)
    else
      var response := j.members["response"].members;
      if "items" in response && !response["items"].JArray? then Err(ItemsNotAnArray)
      else if "count" !in response then Err(MissingCount)
      else if !IsInt32Number(response["count"]) then Err(CountNotAnInt)
      else if "items" !in response then Err(MissingItems)
      else
        var items := response["items"].elems;
        match DecodeMembers(items, ChooseShape(items))
        case Err(e) => Err(e)
        case Ok(members) => Ok(ResponseBody(VkList(response["count"].n as Int32, members)))
  }

  /** The JSON a server would send for a given body: the decoder's partner. */
  function Serialize(body: ResponseBody): Json {
    var items := match body.response.items
      case IntegerList(ids) => seq(|ids|, i requires 0 <= i < |ids| => JNumber(ids[i]))
      case ItemList(its) => seq(|its|, i requires 0 <= i < |its| => JObject(its[i].fields));
    JObject(map["response" := JObject(map["count" := JNumber(body.response.count), "items" := JArray(items)])])
  }

  lemma {:induction false} DecodeIntegersOfNumbers(ids: seq<Int32>)
    ensures DecodeIntegers(seq(|ids|, i requires 0 <= i < |ids| => JNumber(ids[i]))) == Ok(ids)
  {
    if |ids| > 0 {
      var js := seq(|ids|, i requires 0 <= i < |ids| => JNumber(ids[i]));
      assert js[1..] == seq(|ids[1..]|, i requires 0 <= i < |ids[1..]| => JNumber(ids[1..][i]));
      DecodeIntegersOfNumbers(ids[1..]);
      assert ids == [ids[0]] + ids[1..];
    }
  }

  lemma {:induction false} DecodeItemsOfObjects(its: seq<Item>)
    ensures DecodeItems(seq(|its|, i requires 0 <= i < |its| => JObject(its[i].fields))) == Ok(its)
  {
    if |its| > 0 {
      var js := seq(|its|, i requires 0 <= i < |its| => JObject(its[i].fields));
      assert js[1..] == seq(|its[1..]|, i requires 0 <= i < |its[1..]| => JObject(its[1..][i].fields));
      DecodeItemsOfObjects(its[1..]);
      assert its == [its[0]] + its[1..];
    }
  }

  /**
   * Decoding gives back what was serialized, with one exception: an empty
   * item list comes back as an empty integer list, since an empty array is
   * always read as integers.
   */
  lemma SerializeRoundTrip(body: ResponseBody)
    ensures body.response.items != ItemList([]) ==> Deserialize(Serialize(body)) == Ok(body)
    ensures body.response.items == ItemList([]) ==>
      Deserialize(Serialize(body)) == Ok(ResponseBody(VkList(body.response.count, IntegerList([]))))
  {
    match body.response.items
    case IntegerList(ids) => DecodeIntegersOfNumbers(ids);
    case ItemList(its) => DecodeItemsOfObjects(its);
  }

  /**
   * Elements after the first never decide the list type: two responses whose
   * item arrays agree on emptiness and on the first element decode, when
   * both succeed, to the same kind of list.
   */
  lemma ListTypeIgnoresLaterElements(j: Json, k: Json)
    requires Deserialize(j).Ok? && Deserialize(k).Ok?
    requires |ItemsOf(j)| == 0 <==> |ItemsOf(k)| == 0
    requires |ItemsOf(j)| > 0 ==> ItemsOf(j)[0] == ItemsOf(k)[0]
    ensures Deserialize(j).value.response.items.IntegerList?
        <==> Deserialize(k).value.response.items.IntegerList?
  {
  }

  /** The count is taken as sent, even when it disagrees with the number of items. */
  lemma CountNotCheckedAgainstItems(count: Int32, ids: seq<Int32>)
    ensures Deserialize(Serialize(ResponseBody(VkList(count, IntegerList(ids)))))
         == Ok(ResponseBody(VkList(count, IntegerList(ids))))
  {
    SerializeRoundTrip(ResponseBody(VkList(count, IntegerList(ids))));
  }
}
