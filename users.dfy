/** The user-attributes object of users.go: a typed record whose absent fields are left out
    of the wire form, plus an overlay of custom attributes that is written over the typed
    fields when the object is encoded. */
module Users {
  import opened Wrappers
  import opened Json
  import opened CustomAttributes
  import Braze

  type AttributeSubscribe = string
  type AttributeGender = string

  const AttributeSubscribeOptedIn: AttributeSubscribe := "opted_in"
  const AttributeSubscribeUnsubscribed: AttributeSubscribe := "unsubscribed"
  const AttributeSubscribeSubscribed: AttributeSubscribe := "subscribed"
  const AttributeGenderMale: AttributeGender := "M"
  const AttributeGenderFemale: AttributeGender := "F"
  const AttributeGenderOther: AttributeGender := "O"
  const AttributeGenderNotApplicable: AttributeGender := "N"
  const AttributeGenderPreferNotToSay: AttributeGender := "P"

  datatype UserAlias = UserAlias(aliasName: string, aliasLabel: string)

  /** `likes` is a Go slice without omitempty: a nil slice is written as null. */
  datatype AttributeFacebook = AttributeFacebook(id: string, likes: Option<seq<string>>, numFriends: int)

  datatype PushToken = PushToken(appId: string, token: string, deviceId: Option<string>)

  datatype AttributeTwitter = AttributeTwitter(
    id: Option<string>,
    followersCount: Option<int>,
    friendsCount: Option<int>,
    statusesCount: Option<int>)

  /** The typed fields of UserAttributes, in declaration order. None is a nil pointer. */
  datatype Profile = Profile(
    externalId: Option<string>,
    userAlias: Option<UserAlias>,
    brazeId: Option<string>,
    updateExistingOnly: Option<bool>,
    pushTokenImport: Option<bool>,
    firstName: Option<string>,
    lastName: Option<string>,
    email: Option<string>,
    country: Option<string>,
    emailSubscribe: Option<AttributeSubscribe>,
    emailOpenTrackingDisabled: Option<bool>,
    emailClickTrackingDisabled: Option<bool>,
    facebook: Option<AttributeFacebook>,
    gender: Option<AttributeGender>,
    homeCity: Option<string>,
    imageUrl: Option<string>,
    language: Option<string>,
    markedEmailAsSpamAt: Option<string>,
    phone: Option<string>,
    pushSubscribe: Option<AttributeSubscribe>,
    pushTokens: seq<PushToken>,
    timezone: Option<string>,
    twitter: Option<AttributeTwitter>)

  const EmptyProfile := Profile(
    None, None, None, None, None, None, None, None, None, None, None, None,
    None, None, None, None, None, None, None, None, [], None, None)

  /** The JSON names of the typed fields, in declaration order. */
  const WireNames: seq<string> := [
    "external_id", "user_alias", "braze_id", "update_existing_only", "push_token_import",
    "first_name", "last_name", "email", "country", "email_subscribe",
    "email_open_tracking_disabled", "email_click_tracking_disabled", "facebook", "gender",
    "home_city", "image_url", "language", "marked_email_as_spam_at", "phone",
    "push_subscribe", "push_tokens", "time_zone", "twitter"]

  // ---------------------------------------------------------------------------
  // The baseline encoding of the typed fields

  /** An object field: its name and, when the field is written at all, its value. */
  type Entry = (string, Option<JsonValue>)

  /** The names of the entries that are written. */
  function PresentNames(entries: seq<Entry>): set<string> {
    set i | 0 <= i < |entries| && entries[i].1.Some? :: entries[i].0
  }

  ghost predicate DistinctNames(entries: seq<Entry>) {
    forall i, j :: 0 <= i < j < |entries| ==> entries[i].0 != entries[j].0
  }

  /** The object the encoder writes for a struct, with omitted fields left out. */
  function ObjectOf(entries: seq<Entry>): map<string, JsonValue>
    decreases |entries|
  {
    if entries == [] then map[]
    else
      var last := entries[|entries| - 1];
      var prefix := ObjectOf(entries[..|entries| - 1]);
      if last.1.Some? then prefix[last.0 := last.1.value] else prefix
  }

  /** An object has exactly the names of the fields that are written. */
  lemma {:induction false} ObjectOfKeys(entries: seq<Entry>)
    ensures ObjectOf(entries).Keys == PresentNames(entries)
    decreases |entries|
  {
    if entries != [] {
      var prefix := entries[..|entries| - 1];
      ObjectOfKeys(prefix);
      forall k | k in PresentNames(entries)
        ensures k in ObjectOf(entries)
      {
        var i :| 0 <= i < |entries| && entries[i].1.Some? && entries[i].0 == k;
        if i < |entries| - 1 {
          assert prefix[i] == entries[i];
        }
      }
      forall k | k in PresentNames(prefix)
        ensures k in PresentNames(entries)
      {
        var i :| 0 <= i < |prefix| && prefix[i].1.Some? && prefix[i].0 == k;
        assert entries[i] == prefix[i];
      }
    }
  }

  /** With distinct names, a written field holds its value and an omitted field is absent. */
  lemma {:induction false} ObjectOfEntry(entries: seq<Entry>, i: nat)
    requires DistinctNames(entries)
    requires i < |entries|
    ensures entries[i].1.Some? ==>
      entries[i].0 in ObjectOf(entries) && ObjectOf(entries)[entries[i].0] == entries[i].1.value
    ensures entries[i].1.None? ==> entries[i].0 !in ObjectOf(entries)
    decreases |entries|
  {
    var prefix := entries[..|entries| - 1];
    assert DistinctNames(prefix) by {
      forall a, b | 0 <= a < b < |prefix| ensures prefix[a].0 != prefix[b].0 {
        assert prefix[a] == entries[a] && prefix[b] == entries[b];
      }
    }
    if i < |entries| - 1 {
      ObjectOfEntry(prefix, i);
      assert prefix[i] == entries[i];
    } else if entries[i].1.None? {
      ObjectOfKeys(prefix);
      forall j | 0 <= j < |prefix| ensures prefix[j].0 != entries[i].0 {
        assert prefix[j] == entries[j];
      }
    }
  }

  function StrField(o: Option<string>): Option<JsonValue> {
    if o.Some? then Some(JStr(o.value)) else None
  }

  function BoolField(o: Option<bool>): Option<JsonValue> {
    if o.Some? then Some(JBool(o.value)) else None
  }

  function IntField(o: Option<int>): Option<JsonValue> {
    if o.Some? then Some(JInt(o.value)) else None
  }

  function EncodeUserAlias(a: UserAlias): JsonValue {
    JObject(map["alias_name" := JStr(a.aliasName), "alias_label" := JStr(a.aliasLabel)])
  }

  function EncodeFacebook(f: AttributeFacebook): JsonValue {
    JObject(map[
      "id" := JStr(f.id),
      "likes" := (if f.likes.Some? then JStrList(f.likes.value) else JNull),
      "num_friends" := JInt(f.numFriends)])
  }

  function EncodePushToken(t: PushToken): JsonValue {
    JObject(ObjectOf([
      ("app_id", Some(JStr(t.appId))),
      ("token", Some(JStr(t.token))),
      ("device_id", StrField(t.deviceId))]))
  }

  function EncodeTwitter(t: AttributeTwitter): JsonValue {
    JObject(ObjectOf([
      ("id", StrField(t.id)),
      ("followers_count", IntField(t.followersCount)),
      ("friends_count", IntField(t.friendsCount)),
      ("statuses_count", IntField(t.statusesCount))]))
  }

  /** A slice tagged omitempty is left out when it has no elements. */
  function PushTokensField(tokens: seq<PushToken>): Option<JsonValue> {
    if |tokens| == 0 then None
    else Some(JArray(seq(|tokens|, i requires 0 <= i < |tokens| => EncodePushToken(tokens[i]))))
  }

  /** The typed fields with their wire names, each present exactly when the Go field is
      non-nil (non-empty for the push-token slice). */
  function FieldEntries(p: Profile): (r: seq<Entry>)
    ensures |r| == |WireNames|
    ensures forall i :: 0 <= i < |r| ==> r[i].0 == WireNames[i]
  {
    [
      ("external_id", StrField(p.externalId)),
      ("user_alias", if p.userAlias.Some? then Some(EncodeUserAlias(p.userAlias.value)) else None),
      ("braze_id", StrField(p.brazeId)),
      ("update_existing_only", BoolField(p.updateExistingOnly)),
      ("push_token_import", BoolField(p.pushTokenImport)),
      ("first_name", StrField(p.firstName)),
      ("last_name", StrField(p.lastName)),
      ("email", StrField(p.email)),
      ("country", StrField(p.country)),
      ("email_subscribe", StrField(p.emailSubscribe)),
      ("email_open_tracking_disabled", BoolField(p.emailOpenTrackingDisabled)),
      ("email_click_tracking_disabled", BoolField(p.emailClickTrackingDisabled)),
      ("facebook", if p.facebook.Some? then Some(EncodeFacebook(p.facebook.value)) else None),
      ("gender", StrField(p.gender)),
      ("home_city", StrField(p.homeCity)),
      ("image_url", StrField(p.imageUrl)),
      ("language", StrField(p.language)),
      ("marked_email_as_spam_at", StrField(p.markedEmailAsSpamAt)),
      ("phone", StrField(p.phone)),
      ("push_subscribe", StrField(p.pushSubscribe)),
      ("push_tokens", PushTokensField(p.pushTokens)),
      ("time_zone", StrField(p.timezone)),
      ("twitter", if p.twitter.Some? then Some(EncodeTwitter(p.twitter.value)) else None)
    ]
  }

  /** The first pass of the encoding: the typed fields alone, decoded back into a map. */
  function Baseline(p: Profile): map<string, JsonValue> {
    ObjectOf(FieldEntries(p))
  }

  /** The wire names of the typed fields that are present. */
  function PresentWireNames(p: Profile): set<string> {
    set i | 0 <= i < |WireNames| && FieldEntries(p)[i].1.Some? :: WireNames[i]
  }

  lemma WireNamesDistinct(p: Profile)
    ensures DistinctNames(FieldEntries(p))
  {
    assert forall i, j :: 0 <= i < j < |WireNames| ==> WireNames[i] != WireNames[j];
  }

  /** The baseline holds exactly the present typed fields, each with its encoded value;
      an absent field never appears. */
  lemma BaselineFields(p: Profile)
    ensures Baseline(p).Keys == PresentWireNames(p)
    ensures forall i :: 0 <= i < |WireNames| && FieldEntries(p)[i].1.None? ==> WireNames[i] !in Baseline(p)
    ensures forall i :: 0 <= i < |WireNames| && FieldEntries(p)[i].1.Some? ==>
      WireNames[i] in Baseline(p) && Baseline(p)[WireNames[i]] == FieldEntries(p)[i].1.value
  {
    var e := FieldEntries(p);
    ObjectOfKeys(e);
    assert PresentNames(e) == PresentWireNames(p);
    WireNamesDistinct(p);
    forall i | 0 <= i < |WireNames| {
      ObjectOfEntry(e, i);
    }
  }

  /** The identifier field, spelled out: written under "external_id" exactly when set. */
  lemma BaselineExternalId(p: Profile)
    ensures "external_id" in Baseline(p) <==> p.externalId.Some?
    ensures p.externalId.Some? ==> Baseline(p)["external_id"] == JStr(p.externalId.value)
  {
    BaselineFields(p);
    assert WireNames[0] == "external_id";
  }

  /** The push-token slice is omitted when empty, not written as an empty list. */
  lemma BaselinePushTokens(p: Profile)
    ensures "push_tokens" in Baseline(p) <==> |p.pushTokens| > 0
  {
    BaselineFields(p);
    assert WireNames[20] == "push_tokens";
  }

  // ---------------------------------------------------------------------------
  // The overlay and the merge

  /** The overlay after writing each attribute in turn: a later attribute with the same key
      overwrites an earlier one. */
  function AddAll(m: map<string, JsonValue>, attrs: seq<CustomAttribute>): map<string, JsonValue>
    decreases |attrs|
  {
    if attrs == [] then m
    else
      var last := attrs[|attrs| - 1];
      AddAll(m, attrs[..|attrs| - 1])[last.Key() := last.Value()]
  }

  function AttributeKeys(attrs: seq<CustomAttribute>): set<string> {
    set i | 0 <= i < |attrs| :: attrs[i].key
  }

  /** The overlay gains exactly the keys of the attributes added. */
  lemma {:induction false} AddAllKeys(m: map<string, JsonValue>, attrs: seq<CustomAttribute>)
    ensures AddAll(m, attrs).Keys == m.Keys + AttributeKeys(attrs)
    decreases |attrs|
  {
    if attrs != [] {
      var prefix := attrs[..|attrs| - 1];
      AddAllKeys(m, prefix);
      forall k | k in AttributeKeys(attrs) ensures k in AddAll(m, attrs) {
        var i :| 0 <= i < |attrs| && attrs[i].key == k;
        if i < |attrs| - 1 {
          assert prefix[i] == attrs[i];
        }
      }
      forall k | k in AttributeKeys(prefix) ensures k in AttributeKeys(attrs) {
        var i :| 0 <= i < |prefix| && prefix[i].key == k;
        assert attrs[i] == prefix[i];
      }
    }
  }

  /** A key takes the value of the last attribute that carries it. */
  lemma {:induction false} AddAllLastWins(m: map<string, JsonValue>, attrs: seq<CustomAttribute>, i: nat)
    requires i < |attrs|
    requires forall j :: i < j < |attrs| ==> attrs[j].key != attrs[i].key
    ensures attrs[i].key in AddAll(m, attrs) && AddAll(m, attrs)[attrs[i].key] == attrs[i].value
    decreases |attrs|
  {
    if i < |attrs| - 1 {
      var prefix := attrs[..|attrs| - 1];
      assert prefix[i] == attrs[i];
      AddAllLastWins(m, prefix, i);
    }
  }

  /** A key no attribute carries keeps its previous presence and value. */
  lemma {:induction false} AddAllKeepsOthers(m: map<string, JsonValue>, attrs: seq<CustomAttribute>, k: string)
    requires forall j :: 0 <= j < |attrs| ==> attrs[j].key != k
    ensures k in AddAll(m, attrs) <==> k in m
    ensures k in m ==> AddAll(m, attrs)[k] == m[k]
    decreases |attrs|
  {
    if attrs != [] {
      AddAllKeepsOthers(m, attrs[..|attrs| - 1], k);
    }
  }

  ghost predicate DistinctKeys(attrs: seq<CustomAttribute>) {
    forall i, j :: 0 <= i < j < |attrs| ==> attrs[i].key != attrs[j].key
  }

  /** Adding the same attributes with pairwise different keys in any order gives the same
      overlay. */
  lemma AddAllOrderIndependent(m: map<string, JsonValue>, s: seq<CustomAttribute>, t: seq<CustomAttribute>)
    requires multiset(s) == multiset(t)
    requires DistinctKeys(s) && DistinctKeys(t)
    ensures AddAll(m, s) == AddAll(m, t)
  {
    AddAllKeys(m, s);
    AddAllKeys(m, t);
    assert AttributeKeys(s) == AttributeKeys(t) by {
      forall k | k in AttributeKeys(s) ensures k in AttributeKeys(t) {
        var i :| 0 <= i < |s| && s[i].key == k;
        assert s[i] in multiset(t);
      }
      forall k | k in AttributeKeys(t) ensures k in AttributeKeys(s) {
        var i :| 0 <= i < |t| && t[i].key == k;
        assert t[i] in multiset(s);
      }
    }
    forall k | k in AddAll(m, s) ensures AddAll(m, s)[k] == AddAll(m, t)[k] {
      if k in AttributeKeys(s) {
        var i :| 0 <= i < |s| && s[i].key == k;
        assert s[i] in multiset(t);
        var j :| 0 <= j < |t| && t[j] == s[i];
        AddAllLastWins(m, s, i);
        AddAllLastWins(m, t, j);
      } else {
        AddAllKeepsOthers(m, s, k);
        AddAllKeepsOthers(m, t, k);
      }
    }
  }

  /** The second pass of the encoding: every overlay entry written over the baseline. */
  function MergeOverlay(base: map<string, JsonValue>, overlay: map<string, JsonValue>): (m: map<string, JsonValue>)
    ensures m.Keys == base.Keys + overlay.Keys
    ensures forall k :: k in overlay ==> m[k] == overlay[k]
    ensures forall k :: k in base && k !in overlay ==> m[k] == base[k]
  {
    map k | k in base.Keys + overlay.Keys :: if k in overlay then overlay[k] else base[k]
  }

  /** The merged object's keys are the present typed fields' wire names and the overlay keys;
      on a shared name the overlay's value is the one written. */
  lemma MergedKeysAndPrecedence(p: Profile, overlay: map<string, JsonValue>)
    ensures MergeOverlay(Baseline(p), overlay).Keys == PresentWireNames(p) + overlay.Keys
    ensures forall i :: 0 <= i < |WireNames| && FieldEntries(p)[i].1.None? && WireNames[i] !in overlay ==>
      WireNames[i] !in MergeOverlay(Baseline(p), overlay)
    ensures forall i :: 0 <= i < |WireNames| && WireNames[i] in overlay ==>
      MergeOverlay(Baseline(p), overlay)[WireNames[i]] == overlay[WireNames[i]]
  {
    BaselineFields(p);
  }

  /** With nothing in the overlay the merged object is the baseline. */
  lemma MergeEmptyOverlay(base: map<string, JsonValue>)
    ensures MergeOverlay(base, map[]) == base
  {
  }

  /** External id "123" with the attribute testing=true encodes to exactly those two fields. */
  lemma TrackCustomAttributesScenario()
    ensures MergeOverlay(
        Baseline(EmptyProfile.(externalId := Some("123"))),
        AddAll(map[], [BoolAttribute("testing", true)]))
      == map["external_id" := JStr("123"), "testing" := JBool(true)]
  {
    var p := EmptyProfile.(externalId := Some("123"));
    BaselineFields(p);
    assert forall i :: 1 <= i < |WireNames| ==> FieldEntries(p)[i].1.None?;
    assert PresentWireNames(p) == {"external_id"} by {
      assert FieldEntries(p)[0].1.Some?;
    }
    var attrs := [BoolAttribute("testing", true)];
    assert attrs[..0] == [];
  }

  // ---------------------------------------------------------------------------
  // The object itself

  class UserAttributes {
    /** The typed fields; Go exports them, so callers assign them directly. */
    var profile: Profile
    /** The custom attributes; None until the first AddAttributes creates the map. */
    var customAttributes: Option<map<string, JsonValue>>

    constructor (profile: Profile)
      ensures this.profile == profile && customAttributes == None
    {
      this.profile := profile;
      customAttributes := None;
    }

    /** The custom attributes as a map, a nil map reading as empty. */
    function Overlay(): map<string, JsonValue>
      reads this
    {
      if customAttributes.Some? then customAttributes.value else map[]
    }

    /** Creates the map if there is none, then writes each attribute in order. */
    method AddAttributes(attrs: seq<CustomAttribute>)
      modifies this
      ensures profile == old(profile)
      ensures customAttributes == Some(AddAll(old(Overlay()), attrs))
      ensures attrs == [] ==> Overlay() == old(Overlay())
    {
      if customAttributes.None? {
        customAttributes := Some(map[]);
      }
      for i := 0 to |attrs|
        invariant profile == old(profile)
        invariant customAttributes == Some(AddAll(old(Overlay()), attrs[..i]))
      {
        assert attrs[..i + 1][..i] == attrs[..i];
        customAttributes := Some(customAttributes.value[attrs[i].key := attrs[i].value]);
      }
      assert attrs[..|attrs|] == attrs;
    }

    /** A copy of the custom attributes, entry by entry. The copy is a value: changing it
        later cannot reach the object. */
    method GetCustomAttributes() returns (copy: map<string, JsonValue>)
      ensures copy == Overlay()
    {
      var source := Overlay();
      copy := map[];
      var pending := source.Keys;
      while pending != {}
        invariant pending <= source.Keys
        invariant copy.Keys == source.Keys - pending
        invariant forall k :: k in copy ==> copy[k] == source[k]
        decreases pending
      {
        var k :| k in pending;
        copy := copy[k := source[k]];
        pending := pending - {k};
      }
    }

    /** Encodes the typed fields, then writes every custom attribute over the result. */
    method MarshalJSON() returns (doc: JsonValue)
      ensures doc == JObject(MergeOverlay(Baseline(profile), Overlay()))
    {
      var base := Baseline(profile);
      var m := base;
      if customAttributes.Some? {
        var overlay := customAttributes.value;
        var pending := overlay.Keys;
        while pending != {}
          invariant pending <= overlay.Keys
          invariant m.Keys == base.Keys + (overlay.Keys - pending)
          invariant forall k :: k in m ==>
            m[k] == if k in overlay && k !in pending then overlay[k] else base[k]
          decreases pending
        {
          var k :| k in pending;
          m := m[k := overlay[k]];
          pending := pending - {k};
        }
      }
      doc := JObject(m);
    }
  }

  // ---------------------------------------------------------------------------
  // Operations the source leaves unimplemented

  datatype UsersIdentifyRequest = UsersIdentifyRequest
  datatype UsersCreateAliasRequest = UsersCreateAliasRequest

  /** Not implemented in the source (it panics): every call fails. */
  function Identify(r: Option<UsersIdentifyRequest>): (res: Result<Braze.Response, Braze.ClientError>)
    ensures res.Failure? && res.error == Braze.NotImplemented
  {
    Failure(Braze.NotImplemented)
  }

  /** Not implemented in the source (it panics): every call fails. */
  function CreateAlias(r: Option<UsersCreateAliasRequest>): (res: Result<Braze.Response, Braze.ClientError>)
    ensures res.Failure? && res.error == Braze.NotImplemented
  {
    Failure(Braze.NotImplemented)
  }
}
