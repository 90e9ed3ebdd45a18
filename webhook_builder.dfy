/** The webhook message builder: chained setters on one JSON payload, an
    embed list, and an optional file with its name. */
module WebhookBuilder {
  import opened Bytes
  import opened Json

  /** The keys the setters write. */
  const CONTENT_KEY: string := "content"
  const USERNAME_KEY: string := "username"
  const AVATAR_URL_KEY: string := "avatar_url"
  const EMBEDS_KEY: string := "embeds"

  /** A file to attach, by path. */
  datatype FileRef = FileRef(path: string)

  class WebhookMessageBuilder {
    /** The payload's members the setters wrote. */
    var properties: map<string, Json>
    /** The embed array, in the order the embeds were added. */
    var embeds: seq<Json>
    /** Whether `buildJson` has put the embed array into the payload. The
        payload holds the array itself, so embeds added later show there
        too. */
    var embedsAttached: bool
    var file: Option<FileRef>
    var fileName: Option<string>

    ghost predicate Valid()
      reads this
    {
      properties.Keys <= {CONTENT_KEY, USERNAME_KEY, AVATAR_URL_KEY}
      && (embedsAttached ==> |embeds| > 0)
    }

    constructor ()
      ensures Valid()
      ensures properties == map[] && embeds == [] && !embedsAttached && file == None && fileName == None
    {
      properties := map[];
      embeds := [];
      embedsAttached := false;
      file := None;
      fileName := None;
    }

    /** The payload object as it stands. */
    function Payload(): (j: Json)
      reads this
      requires Valid()
      ensures j.JObject?
      ensures j.members.Keys == properties.Keys + (if embedsAttached then {EMBEDS_KEY} else {})
      ensures forall k :: k in properties ==> k in j.members && j.members[k] == properties[k]
      ensures embedsAttached ==> EMBEDS_KEY in j.members && j.members[EMBEDS_KEY] == JArray(embeds)
    {
      assert EMBEDS_KEY !in properties;
      if embedsAttached then JObject(properties[EMBEDS_KEY := JArray(embeds)]) else JObject(properties)
    }

    /** `addProperty` of a string: a `null` one is stored as JSON `null`;
        a later call on the same key overwrites. */
    method SetProperty(key: string, value: Option<string>)
      requires Valid() && key in {CONTENT_KEY, USERNAME_KEY, AVATAR_URL_KEY}
      modifies this
      ensures Valid()
      ensures properties == old(properties)[key := StringOrNull(value)]
      ensures embeds == old(embeds) && embedsAttached == old(embedsAttached)
      ensures file == old(file) && fileName == old(fileName)
    {
      properties := properties[key := StringOrNull(value)];
    }

    /** `content`. */
    method Content(content: Option<string>)
      requires Valid()
      modifies this
      ensures Valid()
      ensures properties == old(properties)[CONTENT_KEY := StringOrNull(content)]
      ensures embeds == old(embeds) && embedsAttached == old(embedsAttached)
      ensures file == old(file) && fileName == old(fileName)
    {
      SetProperty(CONTENT_KEY, content);
    }

    /** `username`. */
    method Username(username: Option<string>)
      requires Valid()
      modifies this
      ensures Valid()
      ensures properties == old(properties)[USERNAME_KEY := StringOrNull(username)]
      ensures embeds == old(embeds) && embedsAttached == old(embedsAttached)
      ensures file == old(file) && fileName == old(fileName)
    {
      SetProperty(USERNAME_KEY, username);
    }

    /** `avatarUrl`. */
    method AvatarUrl(url: Option<string>)
      requires Valid()
      modifies this
      ensures Valid()
      ensures properties == old(properties)[AVATAR_URL_KEY := StringOrNull(url)]
      ensures embeds == old(embeds) && embedsAttached == old(embedsAttached)
      ensures file == old(file) && fileName == old(fileName)
    {
      SetProperty(AVATAR_URL_KEY, url);
    }

    /** `addEmbed`: appended after the embeds added before it. */
    method AddEmbed(embed: map<string, Json>)
      requires Valid()
      modifies this
      ensures Valid()
      ensures embeds == old(embeds) + [JObject(embed)]
      ensures properties == old(properties) && embedsAttached == old(embedsAttached)
      ensures file == old(file) && fileName == old(fileName)
    {
      embeds := embeds + [JObject(embed)];
    }

    /** `withFile`: the last call decides the file and its name. */
    method WithFile(f: Option<FileRef>, name: Option<string>)
      requires Valid()
      modifies this
      ensures Valid()
      ensures file == f && fileName == name
      ensures properties == old(properties) && embeds == old(embeds) && embedsAttached == old(embedsAttached)
    {
      file := f;
      fileName := name;
    }

    /** `buildJson`: the embed array is put into the payload when there is
        at least one embed; the other members are left as they are. */
    method BuildJson() returns (payload: Json)
      requires Valid()
      modifies this
      ensures Valid()
      ensures embedsAttached == (old(embedsAttached) || |embeds| > 0)
      ensures payload == Payload()
      ensures payload.JObject? && (EMBEDS_KEY in payload.members <==> |embeds| > 0)
      ensures |embeds| > 0 ==> payload.members[EMBEDS_KEY] == JArray(embeds)
      ensures forall k :: k in properties ==> k in payload.members && payload.members[k] == properties[k]
      ensures properties == old(properties) && embeds == old(embeds)
      ensures file == old(file) && fileName == old(fileName)
    {
      if |embeds| > 0 {
        embedsAttached := true;
      }
      payload := Payload();
    }

    /** `hasFile`. */
    function HasFile(): (has: bool)
      reads this
      ensures has <==> file.Some?
    {
      file.Some?
    }

    function GetFile(): Option<FileRef>
      reads this
    {
      file
    }

    function GetFileName(): Option<string>
      reads this
    {
      fileName
    }
  }

  /** A builder used in the usual order: content, username, embeds, build.
      The payload has exactly the members set, each with its last value,
      and the embeds in the order they were added. */
  method BuildMessage(content: string, username: string, firstEmbed: map<string, Json>, secondEmbed: map<string, Json>)
    returns (payload: Json)
    ensures payload.JObject? && payload.members.Keys == {CONTENT_KEY, USERNAME_KEY, EMBEDS_KEY}
    ensures payload.members[CONTENT_KEY] == JString(content)
    ensures payload.members[USERNAME_KEY] == JString(username)
    ensures payload.members[EMBEDS_KEY] == JArray([JObject(firstEmbed), JObject(secondEmbed)])
  {
    var b := new WebhookMessageBuilder();
    b.Content(Some("draft"));
    b.Username(Some(username));
    b.AddEmbed(firstEmbed);
    b.Content(Some(content));
    b.AddEmbed(secondEmbed);
    payload := b.BuildJson();
  }

  /** Without embeds the payload has no `embeds` member. */
  method BuildWithoutEmbeds(content: Option<string>) returns (payload: Json)
    ensures payload.JObject? && payload.members.Keys == {CONTENT_KEY}
    ensures payload.members[CONTENT_KEY] == StringOrNull(content)
  {
    var b := new WebhookMessageBuilder();
    b.Content(content);
    payload := b.BuildJson();
  }

  /** The array is shared: an embed added after `buildJson` shows up in the
      payload object already returned. */
  method EmbedAfterBuild(first: map<string, Json>, later: map<string, Json>) returns (before: Json, after: Json)
    ensures before.JObject? && EMBEDS_KEY in before.members && before.members[EMBEDS_KEY] == JArray([JObject(first)])
    ensures after.JObject? && EMBEDS_KEY in after.members && after.members[EMBEDS_KEY] == JArray([JObject(first), JObject(later)])
  {
    var b := new WebhookMessageBuilder();
    b.AddEmbed(first);
    before := b.BuildJson();
    b.AddEmbed(later);
    after := b.Payload();
  }

  /** `hasFile` follows the last `withFile`: a later call with no file
      clears it, and the name is the last one given. */
  method FileFollowsLastCall(f: FileRef, name: string, later: string) returns (hadFile: bool, hasFile: bool, lastName: Option<string>)
    ensures hadFile && !hasFile && lastName == Some(later)
  {
    var b := new WebhookMessageBuilder();
    b.WithFile(Some(f), Some(name));
    hadFile := b.HasFile();
    b.WithFile(None, Some(later));
    hasFile := b.HasFile();
    lastName := b.GetFileName();
  }
}
