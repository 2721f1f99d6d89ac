/** The renderer's persistence layer (src/renderer/services/storage.ts): conversations,
    settings and the API key kept in the browser's local storage. Local storage is a map from
    key to stored item together with the order in which keys were first set; the JSON the
    service writes is kept as the value it encodes, so that parsing what was stringified gives
    the value back. */
module Storage {
  import opened Wrappers
  import opened Types
  import Constants

  /** A settings value: a string, a boolean, or a nested object. */
  datatype Value = Text(s: string) | Flag(b: bool) | Group(fields: map<string, Value>)

  /** AppConfig, or a part of one, as a JSON object. */
  type Settings = map<string, Value>

  /** What a local-storage slot holds: the JSON text of a conversation list, the JSON text of
      a settings object, or any other text (the API key, or text that is empty or does not
      parse). */
  datatype Item =
    | ConversationsJson(conversations: seq<Conversation>)
    | SettingsJson(settings: Settings)
    | Raw(text: string)

  /** The settings used when none are stored or the stored text does not parse. */
  const DefaultSettings: Settings := map[
    "theme" := Text("system"),
    "shortcuts" := Group(map[
      "toggle" := Text(Constants.ToggleAccelerator),
      "screenshot" := Text(Constants.ScreenshotAccelerator),
      "audio" := Text(Constants.AudioAccelerator)]),
    "storage" := Group(map["conversations" := Flag(true), "analytics" := Flag(false)])
  ]

  /** Each of the service's slots holds only what the service writes there. */
  predicate WellTyped(items: map<string, Item>) {
    && (Constants.ConversationsKey in items ==> !items[Constants.ConversationsKey].SettingsJson?)
    && (Constants.SettingsKey in items ==> !items[Constants.SettingsKey].ConversationsJson?)
    && (Constants.ApiKeyKey in items ==> items[Constants.ApiKeyKey].Raw?)
  }

  /** `getConversations`: the stored list, or `[]` when the slot is absent, empty or does not
      parse. */
  function ConversationsOf(items: map<string, Item>): (r: seq<Conversation>)
    ensures r != [] ==> Constants.ConversationsKey in items && items[Constants.ConversationsKey] == ConversationsJson(r)
    ensures Constants.ConversationsKey in items && items[Constants.ConversationsKey].ConversationsJson? ==>
      r == items[Constants.ConversationsKey].conversations
  {
    if Constants.ConversationsKey in items && items[Constants.ConversationsKey].ConversationsJson? then
      items[Constants.ConversationsKey].conversations
    else
      []
  }

  /** The settings slot holds a settings object that parses. */
  predicate StoresSettings(items: map<string, Item>) {
    Constants.SettingsKey in items && items[Constants.SettingsKey].SettingsJson?
  }

  /** `getSettings`: the defaults, shallow-overridden by the stored object's keys when there is
      one that parses. */
  function SettingsOf(items: map<string, Item>): (r: Settings)
    ensures r.Keys >= DefaultSettings.Keys
    ensures forall k :: k in r && k !in DefaultSettings ==>
      Constants.SettingsKey in items && items[Constants.SettingsKey].SettingsJson? &&
      k in items[Constants.SettingsKey].settings && r[k] == items[Constants.SettingsKey].settings[k]
    ensures StoresSettings(items) ==>
      forall k :: k in items[Constants.SettingsKey].settings ==> k in r && r[k] == items[Constants.SettingsKey].settings[k]
    ensures forall k :: (k in DefaultSettings && !(StoresSettings(items) && k in items[Constants.SettingsKey].settings)) ==>
      r[k] == DefaultSettings[k]
  {
    if Constants.SettingsKey in items && items[Constants.SettingsKey].SettingsJson? then
      DefaultSettings + items[Constants.SettingsKey].settings
    else
      DefaultSettings
  }

  /** `getApiKey`: the stored key, or `null`. */
  function ApiKeyOf(items: map<string, Item>): (r: Option<string>)
    ensures r.Some? <==> Constants.ApiKeyKey in items && items[Constants.ApiKeyKey].Raw?
    ensures r.Some? ==> items[Constants.ApiKeyKey] == Raw(r.value)
  {
    if Constants.ApiKeyKey in items && items[Constants.ApiKeyKey].Raw? then Some(items[Constants.ApiKeyKey].text) else None
  }

  /** `findIndex` on the conversation id. */
  function FindIndex(conversations: seq<Conversation>, id: string): (r: Option<nat>)
    ensures r.Some? ==> r.value < |conversations| && conversations[r.value].id == id
    ensures r.Some? ==> forall j :: 0 <= j < r.value ==> conversations[j].id != id
    ensures r.None? ==> forall j :: 0 <= j < |conversations| ==> conversations[j].id != id
  {
    if conversations == [] then None
    else if conversations[0].id == id then Some(0)
    else match FindIndex(conversations[1..], id)
      case Some(i) => Some(i + 1)
      case None => None
  }

  /** `getConversation`: the first entry with the id, or `null`. */
  function First(conversations: seq<Conversation>, id: string): (r: Option<Conversation>)
    ensures r.Some? ==> r.value.id == id && r.value in conversations
    ensures r.Some? ==> exists i :: 0 <= i < |conversations| && conversations[i] == r.value &&
                                     (forall j :: 0 <= j < i ==> conversations[j].id != id)
    ensures r.None? <==> forall c :: c in conversations ==> c.id != id
  {
    match FindIndex(conversations, id)
    case Some(i) => Some(conversations[i])
    case None => None
  }

  /** The list `saveConversation` stores: the first entry with the same id replaced in place,
      or the conversation appended when there is none. */
  function Upsert(conversations: seq<Conversation>, c: Conversation): (r: seq<Conversation>)
    ensures c in r && |r| >= |conversations|
    ensures forall j :: 0 <= j < |conversations| && conversations[j].id != c.id ==> r[j] == conversations[j]
    ensures (forall d :: d in conversations ==> d.id != c.id) ==> r == conversations + [c]
    ensures (exists d :: d in conversations && d.id == c.id) ==> |r| == |conversations|
    ensures forall i :: (0 <= i < |conversations| && conversations[i].id == c.id &&
                         (forall j :: 0 <= j < i ==> conversations[j].id != c.id)) ==>
      r == conversations[i := c]
  {
    match FindIndex(conversations, c.id)
    case Some(i) => assert conversations[i := c][i] == c; conversations[i := c]
    case None => conversations + [c]
  }

  /** The list `deleteConversation` stores: every entry with another id, in order. */
  function Without(conversations: seq<Conversation>, id: string): (r: seq<Conversation>)
    ensures |r| <= |conversations|
    ensures forall c :: c in r <==> c in conversations && c.id != id
  {
    if conversations == [] then []
    else if conversations[0].id == id then Without(conversations[1..], id)
    else [conversations[0]] + Without(conversations[1..], id)
  }

  /** Deleting keeps the surviving entries in their original order: it distributes over
      concatenation. */
  lemma {:induction false} WithoutDistributes(a: seq<Conversation>, b: seq<Conversation>, id: string)
    ensures Without(a + b, id) == Without(a, id) + Without(b, id)
  {
    if a == [] {
      assert a + b == b;
    } else {
      assert (a + b)[1..] == a[1..] + b;
      WithoutDistributes(a[1..], b, id);
    }
  }

  /** Deleting an id no entry has leaves the list as it is. */
  lemma {:induction false} WithoutAbsentId(conversations: seq<Conversation>, id: string)
    requires forall c :: c in conversations ==> c.id != id
    ensures Without(conversations, id) == conversations
  {
    if conversations != [] {
      assert conversations[0] in conversations;
      assert forall c :: c in conversations[1..] ==> c in conversations;
      WithoutAbsentId(conversations[1..], id);
      assert [conversations[0]] + conversations[1..] == conversations;
    }
  }

  /** After an upsert, looking the id up finds exactly the saved conversation; other ids
      find what they found before. */
  lemma UpsertThenFirst(conversations: seq<Conversation>, c: Conversation, id: string)
    ensures First(Upsert(conversations, c), c.id) == Some(c)
    ensures id != c.id ==> First(Upsert(conversations, c), id) == First(conversations, id)
  {
    var r := Upsert(conversations, c);
    match FindIndex(conversations, c.id)
    case Some(i) =>
      assert r == conversations[i := c];
      assert FindIndex(r, c.id) == Some(i) by {
        FindIndexIs(r, c.id, i);
      }
      if id != c.id {
        FindIndexAfterUpdate(conversations, i, c, id);
      }
    case None =>
      assert r == conversations + [c];
      FindIndexIs(r, c.id, |conversations|);
      if id != c.id {
        FindIndexAfterAppend(conversations, c, id);
      }
  }

  /** `i` is the first position holding `id`. */
  lemma {:induction false} FindIndexIs(conversations: seq<Conversation>, id: string, i: nat)
    requires i < |conversations| && conversations[i].id == id
    requires forall j :: 0 <= j < i ==> conversations[j].id != id
    ensures FindIndex(conversations, id) == Some(i)
  {
    if i > 0 {
      FindIndexIs(conversations[1..], id, i - 1);
    }
  }

  lemma FindIndexAfterUpdate(conversations: seq<Conversation>, i: nat, c: Conversation, id: string)
    requires i < |conversations| && conversations[i].id == c.id && id != c.id
    ensures FindIndex(conversations[i := c], id) == FindIndex(conversations, id)
  {
    var r := conversations[i := c];
    match FindIndex(conversations, id)
    case Some(k) =>
      FindIndexIs(r, id, k);
    case None =>
  }

  lemma FindIndexAfterAppend(conversations: seq<Conversation>, c: Conversation, id: string)
    requires id != c.id
    ensures FindIndex(conversations + [c], id) == FindIndex(conversations, id)
  {
    var r := conversations + [c];
    match FindIndex(conversations, id)
    case Some(k) =>
      FindIndexIs(r, id, k);
    case None =>
  }

  /** After a delete, looking the id up finds nothing, and other ids find what they found
      before. */
  lemma {:induction false} WithoutThenFirst(conversations: seq<Conversation>, id: string, other: string)
    ensures First(Without(conversations, id), id).None?
    ensures other != id ==> First(Without(conversations, id), other) == First(conversations, other)
  {
    if conversations != [] {
      WithoutThenFirst(conversations[1..], id, other);
      var r := Without(conversations, id);
      if other != id && conversations[0].id != id {
        assert r == [conversations[0]] + Without(conversations[1..], id);
        if conversations[0].id == other {
          FindIndexIs(r, other, 0);
          FindIndexIs(conversations, other, 0);
        } else {
          ShiftedFirst(conversations, other);
          ShiftedFirst(r, other);
          assert r[1..] == Without(conversations[1..], id);
        }
      } else if other != id {
        assert r == Without(conversations[1..], id);
        ShiftedFirst(conversations, other);
      }
    }
  }

  /** Looking past a head that does not match. */
  lemma ShiftedFirst(conversations: seq<Conversation>, id: string)
    requires conversations != [] && conversations[0].id != id
    ensures First(conversations, id) == First(conversations[1..], id)
  {
    match FindIndex(conversations[1..], id)
    case Some(k) =>
      FindIndexIs(conversations, id, k + 1);
    case None =>
  }

  /** The keys in the order local storage lists them, after `setItem(key, …)`. */
  function Touched(keys: seq<string>, key: string): (r: seq<string>)
    ensures key in r && forall k :: k in keys ==> k in r
    ensures forall k :: k in r ==> k in keys || k == key
  {
    if key in keys then keys else keys + [key]
  }

  /** The keys after `removeItem(key)`. */
  function Removed(keys: seq<string>, key: string): (r: seq<string>)
    ensures key !in r
    ensures forall k :: k in r <==> k in keys && k != key
  {
    if keys == [] then []
    else if keys[0] == key then Removed(keys[1..], key)
    else [keys[0]] + Removed(keys[1..], key)
  }

  /** Removing a key keeps the listed keys distinct. */
  lemma {:induction false} RemovedKeepsDistinct(keys: seq<string>, key: string)
    requires Constants.Distinct(keys)
    ensures Constants.Distinct(Removed(keys, key))
  {
    if keys != [] {
      assert Constants.Distinct(keys[1..]);
      RemovedKeepsDistinct(keys[1..], key);
      if keys[0] != key {
        assert keys[0] !in keys[1..];
        assert keys[0] !in Removed(keys[1..], key);
      }
    }
  }

  /** The length of the text stored in a slot; the length of JSON text is `jsonLength`, since
      the model does not encode JSON. */
  function StoredLength(item: Item, jsonLength: Item -> nat): nat {
    match item
    case Raw(t) => |t|
    case _ => jsonLength(item)
  }

  /** What `getStorageSize` adds up over the listed keys: the stored length of every slot
      whose key is not the empty string (an empty key is falsy and skipped). */
  function Size(keys: seq<string>, items: map<string, Item>, jsonLength: Item -> nat): nat
  {
    if keys == [] then 0
    else
      var k := keys[|keys| - 1];
      Size(keys[..|keys| - 1], items, jsonLength) + (if k != "" && k in items then StoredLength(items[k], jsonLength) else 0)
  }

  /** Only the listed keys count towards the size. */
  lemma {:induction false} SizeIgnoresUnlisted(keys: seq<string>, items: map<string, Item>, key: string, item: Item, jsonLength: Item -> nat)
    requires key !in keys
    ensures Size(keys, items[key := item], jsonLength) == Size(keys, items, jsonLength)
  {
    if keys != [] {
      SizeIgnoresUnlisted(keys[..|keys| - 1], items, key, item, jsonLength);
    }
  }

  /** Storing an API key in a fresh slot grows the size by the key's length. */
  lemma NewApiKeyGrowsSize(keys: seq<string>, items: map<string, Item>, apiKey: string, jsonLength: Item -> nat)
    requires Constants.ApiKeyKey !in keys
    ensures Size(Touched(keys, Constants.ApiKeyKey), items[Constants.ApiKeyKey := Raw(apiKey)], jsonLength)
         == Size(keys, items, jsonLength) + |apiKey|
  {
    var t := Touched(keys, Constants.ApiKeyKey);
    assert t == keys + [Constants.ApiKeyKey];
    assert t[..|t| - 1] == keys;
    SizeIgnoresUnlisted(keys, items, Constants.ApiKeyKey, Raw(apiKey), jsonLength);
  }

  /** The document `exportData` stringifies and `importData` parses. A section is `None` when
      the parsed document lacks it or holds a falsy value there. */
  datatype Backup = Backup(conversations: Option<seq<Conversation>>, settings: Option<Settings>, exportedAt: Option<string>)

  /** `exportData`: the current conversations and settings, stamped with the export time. */
  function Exported(items: map<string, Item>, exportedAt: string): Backup {
    Backup(Some(ConversationsOf(items)), Some(SettingsOf(items)), Some(exportedAt))
  }

  /** The key order after a successful `importData`: the conversations section is written
      first, then the settings section, each appending its key when it is new. */
  function ImportedKeys(keys: seq<string>, backup: Backup): (r: seq<string>)
    ensures keys <= r
    ensures forall k :: k in r ==>
      k in keys || (k == Constants.ConversationsKey && backup.conversations.Some?) ||
      (k == Constants.SettingsKey && backup.settings.Some?)
    ensures backup.conversations.Some? ==> Constants.ConversationsKey in r
    ensures backup.settings.Some? ==> Constants.SettingsKey in r
  {
    var afterConversations := if backup.conversations.Some? then Touched(keys, Constants.ConversationsKey) else keys;
    if backup.settings.Some? then Touched(afterConversations, Constants.SettingsKey) else afterConversations
  }

  /** The slots after a successful `importData`: only the sections present are written. */
  function Imported(items: map<string, Item>, backup: Backup): (r: map<string, Item>)
    ensures forall k :: k in items ==> k in r
    ensures forall k :: k in r && k != Constants.ConversationsKey && k != Constants.SettingsKey ==> k in items && r[k] == items[k]
  {
    var withConversations := if backup.conversations.Some? then items[Constants.ConversationsKey := ConversationsJson(backup.conversations.value)] else items;
    if backup.settings.Some? then withConversations[Constants.SettingsKey := SettingsJson(backup.settings.value)] else withConversations
  }

  /** Importing what was exported gives back the same conversations and settings. */
  lemma ImportExportRoundTrip(items: map<string, Item>, exportedAt: string)
    ensures ConversationsOf(Imported(items, Exported(items, exportedAt))) == ConversationsOf(items)
    ensures SettingsOf(Imported(items, Exported(items, exportedAt))) == SettingsOf(items)
  {
    var r := Imported(items, Exported(items, exportedAt));
    assert r[Constants.ConversationsKey] == ConversationsJson(ConversationsOf(items));
    assert r[Constants.SettingsKey] == SettingsJson(SettingsOf(items));
    assert DefaultSettings + SettingsOf(items) == SettingsOf(items);
  }

  /** Importing writes what it was given, section by section. */
  lemma ImportedSections(items: map<string, Item>, backup: Backup)
    ensures backup.conversations.Some? ==> ConversationsOf(Imported(items, backup)) == backup.conversations.value
    ensures backup.conversations.None? ==> ConversationsOf(Imported(items, backup)) == ConversationsOf(items)
    ensures backup.settings.Some? ==> SettingsOf(Imported(items, backup)) == DefaultSettings + backup.settings.value
    ensures backup.settings.None? ==> SettingsOf(Imported(items, backup)) == SettingsOf(items)
  {
    var r := Imported(items, backup);
    if backup.conversations.Some? {
      assert r[Constants.ConversationsKey] == ConversationsJson(backup.conversations.value);
    }
  }

  /** What `saveSettings` stores: the current settings shallow-merged with the partial ones,
      whose keys win; `getSettings` then reads back exactly that merge. */
  lemma SavedSettingsReadBack(items: map<string, Item>, partial: Settings)
    ensures var saved := SettingsOf(items) + partial;
      && SettingsOf(items[Constants.SettingsKey := SettingsJson(saved)]) == saved
      && (forall k :: k in partial ==> saved[k] == partial[k])
      && (forall k :: k in SettingsOf(items) && k !in partial ==> saved[k] == SettingsOf(items)[k])
  {
    var saved := SettingsOf(items) + partial;
    assert DefaultSettings + saved == saved;
  }

  /** StorageService over one local-storage area. */
  class StorageService {
    /** The stored keys, in the order `key(i)` lists them. */
    var keys: seq<string>
    /** The stored slots. */
    var items: map<string, Item>

    ghost predicate Valid()
      reads this
    {
      && Constants.Distinct(keys)
      && (forall k :: k in items <==> k in keys)
      && WellTyped(items)
    }

    constructor ()
      ensures Valid() && keys == [] && items == map[]
    {
      keys, items := [], map[];
    }

    /** `setItem`. */
    method SetItem(key: string, item: Item)
      requires Valid() && WellTyped(items[key := item])
      modifies this
      ensures Valid()
      ensures items == old(items)[key := item] && keys == Touched(old(keys), key)
    {
      if key !in keys {
        assert forall i :: 0 <= i < |keys| ==> keys[i] in keys;
      }
      items := items[key := item];
      keys := Touched(keys, key);
    }

    /** `removeItem`. */
    method RemoveItem(key: string)
      requires Valid()
      modifies this
      ensures Valid()
      ensures items == old(items) - {key} && keys == Removed(old(keys), key)
    {
      RemovedKeepsDistinct(keys, key);
      items := items - {key};
      keys := Removed(keys, key);
    }

    method SaveConversation(c: Conversation)
      requires Valid()
      modifies this
      ensures Valid()
      ensures items == old(items)[Constants.ConversationsKey := ConversationsJson(Upsert(ConversationsOf(old(items)), c))]
      ensures keys == Touched(old(keys), Constants.ConversationsKey)
    {
      var conversations := GetConversations();
      SetItem(Constants.ConversationsKey, ConversationsJson(Upsert(conversations, c)));
    }

    /** `getConversations`: the stored list, or none when the slot is absent or not a list. */
    function GetConversations(): (r: seq<Conversation>)
      reads this
      ensures Constants.ConversationsKey !in items ==> r == []
      ensures Constants.ConversationsKey in items && items[Constants.ConversationsKey].ConversationsJson? ==>
        r == items[Constants.ConversationsKey].conversations
      ensures Constants.ConversationsKey in items && !items[Constants.ConversationsKey].ConversationsJson? ==> r == []
    {
      ConversationsOf(items)
    }

    /** `getConversation`: the first stored conversation with the id, or `null` when none has it. */
    function GetConversation(id: string): (r: Option<Conversation>)
      reads this
      ensures r.None? <==> forall c :: c in GetConversations() ==> c.id != id
      ensures r.Some? ==> r.value.id == id && r.value in GetConversations()
    {
      First(GetConversations(), id)
    }

    method DeleteConversation(id: string)
      requires Valid()
      modifies this
      ensures Valid()
      ensures items == old(items)[Constants.ConversationsKey := ConversationsJson(Without(ConversationsOf(old(items)), id))]
      ensures keys == Touched(old(keys), Constants.ConversationsKey)
    {
      var conversations := GetConversations();
      SetItem(Constants.ConversationsKey, ConversationsJson(Without(conversations, id)));
    }

    method ClearConversations()
      requires Valid()
      modifies this
      ensures Valid() && GetConversations() == []
      ensures items == old(items) - {Constants.ConversationsKey} && keys == Removed(old(keys), Constants.ConversationsKey)
    {
      RemoveItem(Constants.ConversationsKey);
    }

    method SaveSettings(partial: Settings)
      requires Valid()
      modifies this
      ensures Valid()
      ensures items == old(items)[Constants.SettingsKey := SettingsJson(SettingsOf(old(items)) + partial)]
      ensures keys == Touched(old(keys), Constants.SettingsKey)
    {
      var current := GetSettings();
      SetItem(Constants.SettingsKey, SettingsJson(current + partial));
    }

    /** `getSettings`: the defaults, shallow-overridden by the stored settings if any. */
    function GetSettings(): (r: Settings)
      reads this
      ensures r.Keys >= DefaultSettings.Keys
      ensures !StoresSettings(items) ==> r == DefaultSettings
      ensures StoresSettings(items) ==> r == DefaultSettings + items[Constants.SettingsKey].settings
    {
      SettingsOf(items)
    }

    method SaveApiKey(apiKey: string)
      requires Valid()
      modifies this
      ensures Valid() && GetApiKey() == Some(apiKey)
      ensures items == old(items)[Constants.ApiKeyKey := Raw(apiKey)] && keys == Touched(old(keys), Constants.ApiKeyKey)
    {
      SetItem(Constants.ApiKeyKey, Raw(apiKey));
    }

    /** `getApiKey`: the stored key, or `null` when there is none. */
    function GetApiKey(): (r: Option<string>)
      reads this
      ensures r.Some? <==> Constants.ApiKeyKey in items && items[Constants.ApiKeyKey].Raw?
      ensures r.Some? ==> items[Constants.ApiKeyKey] == Raw(r.value)
    {
      ApiKeyOf(items)
    }

    method ClearApiKey()
      requires Valid()
      modifies this
      ensures Valid() && GetApiKey() == None
      ensures items == old(items) - {Constants.ApiKeyKey} && keys == Removed(old(keys), Constants.ApiKeyKey)
    {
      RemoveItem(Constants.ApiKeyKey);
    }

    method ClearAll()
      modifies this
      ensures Valid() && keys == [] && items == map[]
    {
      keys, items := [], map[];
    }

    /** `getStorageSize`: the stored lengths added up key by key. */
    method GetStorageSize(jsonLength: Item -> nat) returns (size: nat)
      requires Valid()
      ensures size == Size(keys, items, jsonLength)
    {
      size := 0;
      var i := 0;
      while i < |keys|
        invariant 0 <= i <= |keys|
        invariant size == Size(keys[..i], items, jsonLength)
      {
        var key := keys[i];
        assert keys[..i + 1][..i] == keys[..i];
        if key != "" {
          size := size + StoredLength(items[key], jsonLength);
        }
        i := i + 1;
      }
      assert keys[..i] == keys;
    }

    /** `exportData`: a backup that, imported again, gives back the current conversations and
        settings. */
    function ExportData(exportedAt: string): (r: Backup)
      reads this
      ensures r.exportedAt == Some(exportedAt)
      ensures ConversationsOf(Imported(items, r)) == GetConversations()
      ensures SettingsOf(Imported(items, r)) == GetSettings()
    {
      ImportExportRoundTrip(items, exportedAt);
      Exported(items, exportedAt)
    }

    /** `importData`. `parsed` is what `JSON.parse` yields, `None` when it throws or yields
        something whose properties cannot be read. */
    method ImportData(parsed: Option<Backup>) returns (ok: bool)
      requires Valid()
      modifies this
      ensures Valid()
      ensures ok <==> parsed.Some?
      ensures parsed.None? ==> items == old(items) && keys == old(keys)
      ensures parsed.Some? ==> items == Imported(old(items), parsed.value) && keys == ImportedKeys(old(keys), parsed.value)
    {
      if parsed.None? {
        return false;
      }
      var data := parsed.value;
      if data.conversations.Some? {
        SetItem(Constants.ConversationsKey, ConversationsJson(data.conversations.value));
      }
      if data.settings.Some? {
        SetItem(Constants.SettingsKey, SettingsJson(data.settings.value));
      }
      return true;
    }
  }
}
