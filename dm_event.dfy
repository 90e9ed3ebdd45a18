/** The `PRIVATE_CHANNEL_CREATE` gateway event: accessors over its JSON
    data and the classification of the channel by its raw type. */
module DmEvents {
  import opened Bytes
  import opened JavaStrings
  import opened Json

  const EVENT_TYPE: string := "PRIVATE_CHANNEL_CREATE"
  /** Discord's channel type numbers for a direct message and a group DM. */
  const DM_TYPE: int := 1
  const GROUP_DM_TYPE: int := 3

  datatype ChannelType = DirectMessage | GroupDm | Unknown

  /** The `switch` on the raw type. */
  function ChannelTypeOf(raw: int): (t: ChannelType)
    ensures t == DirectMessage <==> raw == DM_TYPE
    ensures t == GroupDm <==> raw == GROUP_DM_TYPE
    ensures t == Unknown <==> raw != DM_TYPE && raw != GROUP_DM_TYPE
  {
    if raw == DM_TYPE then DirectMessage
    else if raw == GROUP_DM_TYPE then GroupDm
    else Unknown
  }

  /** The event, holding the gateway's `d` object. */
  datatype DmChannelCreateEvent = DmChannelCreateEvent(data: map<string, Json>)
  {
    function GetType(): string
    {
      EVENT_TYPE
    }

    /** `getChannelId`: `getAsString` of `id`; an absent one throws. */
    function ChannelId(): (r: Result<string>)
      ensures "id" !in data ==> r == Throws
      ensures "id" in data ==> r == GetAsString(data["id"])
    {
      if "id" in data then GetAsString(data["id"]) else Throws
    }

    /** `getChannelTypeRaw`: `getAsInt` of `type`; an absent one throws. */
    function ChannelTypeRaw(): (r: Result<int>)
      ensures "type" !in data ==> r == Throws
      ensures "type" in data ==> r == GetAsInt(data["type"])
    {
      if "type" in data then GetAsInt(data["type"]) else Throws
    }

    /** `getOwnerId`: none when `owner_id` is absent, otherwise its
        `getAsString`, which throws for a JSON `null`. */
    function OwnerId(): (r: Result<Option<string>>)
      ensures "owner_id" !in data ==> r == Ok(None)
      ensures "owner_id" in data ==>
                (r.Ok? <==> GetAsString(data["owner_id"]).Ok?)
                && (r.Ok? ==> r.value == Some(GetAsString(data["owner_id"]).value))
    {
      if "owner_id" !in data then Ok(None)
      else
        var s := GetAsString(data["owner_id"]);
        if s.Ok? then Ok(Some(s.value)) else Throws
    }

    /** `getRecipients`: none when absent; anything but an array throws. */
    function Recipients(): (r: Result<Option<seq<Json>>>)
      ensures "recipients" !in data ==> r == Ok(None)
      ensures "recipients" in data ==>
                (r.Ok? <==> data["recipients"].JArray?)
                && (r.Ok? ==> r.value == Some(data["recipients"].elems))
    {
      if "recipients" !in data then Ok(None)
      else if data["recipients"].JArray? then Ok(Some(data["recipients"].elems))
      else Throws
    }

    /** `getChannelType`: the raw type, classified. */
    function GetChannelType(): (r: Result<ChannelType>)
      ensures r.Ok? <==> ChannelTypeRaw().Ok?
      ensures r.Ok? ==> r.value == ChannelTypeOf(ChannelTypeRaw().value)
    {
      var raw := ChannelTypeRaw();
      if raw.Ok? then Ok(ChannelTypeOf(raw.value)) else Throws
    }
  }

  /** The type name does not depend on the data. */
  lemma TypeIsConstant(e1: DmChannelCreateEvent, e2: DmChannelCreateEvent)
    ensures e1.GetType() == e2.GetType() == "PRIVATE_CHANNEL_CREATE"
  {
  }

  /** A numeric type classifies as its low 32 bits do. */
  lemma NumberTypeClassified(data: map<string, Json>, n: int)
    requires "type" in data && data["type"] == JNumber(n)
    ensures DmChannelCreateEvent(data).GetChannelType() == Ok(ChannelTypeOf(ToInt32(n)))
    ensures INT_MIN <= n <= INT_MAX ==>
              DmChannelCreateEvent(data).GetChannelType() == Ok(
                if n == 1 then DirectMessage else if n == 3 then GroupDm else Unknown)
  {
  }

  /** `getAsInt` narrows, so 2^32 + 1 passes for a direct message. */
  lemma WrappedTypeIsDirectMessage()
    ensures DmChannelCreateEvent(map["type" := JNumber(TWO_32 + 1)]).GetChannelType() == Ok(DirectMessage)
  {
    assert ToInt32(TWO_32 + 1) == 1;
  }

  /** A type given as the text "3" is read through `Integer.parseInt`. */
  lemma TextTypeIsParsed()
    ensures DmChannelCreateEvent(map["type" := JString("3")]).GetChannelType() == Ok(GroupDm)
  {
    assert IsDigit('3') && "3"[..0] == "";
    assert DigitsValue("3") == 3;
    assert ParseInt("3") == Some(3);
  }

  /** A missing type, or one that is no number, makes `getChannelType`
      throw rather than answer `Unknown`. */
  lemma BadTypeThrows(data: map<string, Json>)
    requires "type" !in data || data["type"].JNull? || data["type"].JBool? || data["type"].JObject?
    ensures DmChannelCreateEvent(data).GetChannelType() == Throws
  {
  }

  /** An `owner_id` present as JSON `null` throws instead of giving none. */
  lemma NullOwnerThrows(data: map<string, Json>)
    requires "owner_id" in data && data["owner_id"] == JNull
    ensures DmChannelCreateEvent(data).OwnerId() == Throws
  {
  }

  /** A present string owner id is given back as it is. */
  lemma OwnerIdGiven(data: map<string, Json>, owner: string)
    requires "owner_id" in data && data["owner_id"] == JString(owner)
    ensures DmChannelCreateEvent(data).OwnerId() == Ok(Some(owner))
  {
  }
}
