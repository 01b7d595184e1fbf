/**
 * The persistence layer: three fixed slots of the browser's key-value
 * storage hold the links, the folder names and the settings. Saves replace a
 * whole slot and swallow every failure; loads never fail and fall back to a
 * fixed default when the slot is empty or unreadable.
 */
module Database {
  import opened Wrappers
  import opened Timestamp
  import opened Collections
  import opened Records

  /** The three storage keys. */
  datatype Key = LinksKey | FoldersKey | SettingsKey

  function KeyName(key: Key): string {
    match key
    case LinksKey => "mywaslat_links"
    case FoldersKey => "mywaslat_folders"
    case SettingsKey => "mywaslat_settings"
  }

  const StorageKeys: seq<Key> := [LinksKey, FoldersKey, SettingsKey]

  /** The three keys name three different storage entries, and the key list holds each key once. */
  lemma StorageKeysDistinct()
    ensures forall k1: Key, k2: Key :: KeyName(k1) == KeyName(k2) ==> k1 == k2
    ensures NoDuplicates(StorageKeys) && forall k: Key :: k in StorageKeys
  {
    assert KeyName(LinksKey)[9] == 'l' && KeyName(FoldersKey)[9] == 'f' && KeyName(SettingsKey)[9] == 's';
    forall k: Key ensures k in StorageKeys {
      match k
      case LinksKey => assert StorageKeys[0] == k;
      case FoldersKey => assert StorageKeys[1] == k;
      case SettingsKey => assert StorageKeys[2] == k;
    }
  }

  /**
   * What one key holds: nothing, content that does not read back as a value of
   * the expected shape, or a value.
   */
  datatype Slot<T> = Absent | Corrupt | Present(value: T)

  /** A link as stored: `createdAt` is text. */
  type StoredLink = LinkRecord<string>

  /**
   * The mapping `saveLinks` applies before writing: every date becomes text.
   * It fails as a whole (the `map` throws) when some link has the invalid date.
   */
  function SerializeLinks(links: seq<Link>): (r: Option<seq<StoredLink>>)
    ensures r.Some? <==> forall i | 0 <= i < |links| :: links[i].createdAt.Instant?
    ensures r.Some? ==> |r.value| == |links|
    ensures r.Some? ==> forall i | 0 <= i < |links| ::
      r.value[i] == Restamp(links[i], ToIso(links[i].createdAt).value)
  {
    if links == [] then Some([])
    else
      match (ToIso(links[0].createdAt), SerializeLinks(links[1..]))
      case (Some(text), Some(rest)) =>
        assert forall i | 1 <= i < |links| :: links[i] == links[1..][i - 1];
        Some([Restamp(links[0], text)] + rest)
      case _ => None
  }

  /** The mapping `loadLinks` applies after reading: every text becomes a date again. */
  function DeserializeLinks(stored: seq<StoredLink>): seq<Link> {
    seq(|stored|, i requires 0 <= i < |stored| => Restamp(stored[i], FromIso(stored[i].createdAt)))
  }

  predicate AllDated(links: seq<Link>) {
    forall i | 0 <= i < |links| :: links[i].createdAt.Instant?
  }

  /** Links whose dates are all valid are written, and read back equal, `createdAt` included. */
  lemma LinksRoundTrip(links: seq<Link>)
    requires AllDated(links)
    ensures SerializeLinks(links).Some?
    ensures DeserializeLinks(SerializeLinks(links).value) == links
  {
    var stored := SerializeLinks(links).value;
    forall i | 0 <= i < |links|
      ensures DeserializeLinks(stored)[i] == links[i]
    {
      IsoRoundTrip(links[i].createdAt);
    }
  }

  /** `loadLinks`: an absent or unreadable slot gives the empty list. */
  function LoadLinks(slot: Slot<seq<StoredLink>>): (r: seq<Link>)
    ensures !slot.Present? ==> r == []
    ensures slot.Present? ==> |r| == |slot.value|
  {
    match slot
    case Present(stored) => DeserializeLinks(stored)
    case _ => []
  }

  /** `loadFolders`: the stored list verbatim, or the four defaults. */
  function LoadFolders(slot: Slot<seq<string>>): (r: seq<string>)
    ensures !slot.Present? ==> r == ["Work", "Study", "Fun", "Personal"]
    ensures slot.Present? ==> r == slot.value
  {
    match slot
    case Present(folders) => folders
    case _ => DefaultFolders
  }

  /**
   * `loadSettings`: the default record for an absent or unreadable slot;
   * otherwise the stored record, with a falsy `language` read as Arabic.
   */
  function LoadSettings(slot: Slot<Settings>): (r: Settings)
    ensures r.language.Some?
    ensures !slot.Present? ==> r == Settings(false, Some(Ar), Grid, "all")
    ensures slot.Present? && slot.value.language.Some? ==> r == slot.value
    ensures slot.Present? && slot.value.language.None? ==>
      r.language == Some(Ar) && r.darkMode == slot.value.darkMode &&
      r.viewLayout == slot.value.viewLayout && r.currentView == slot.value.currentView
  {
    match slot
    case Present(stored) =>
      if stored.language.None? then stored.(language := Some(Ar)) else stored
    case _ => DefaultSettings
  }

  /** The document `exportData` serialises. */
  datatype ExportDocument = ExportDocument(
    links: seq<Link>,
    folders: seq<string>,
    settings: Settings,
    exportDate: string,
    version: string)

  /** A `createdAt` value as `JSON.parse` gives it in an imported document. */
  datatype JsonStamp = Text(text: string) | Null | Missing

  type DocumentLink = LinkRecord<JsonStamp>

  /** `new Date(value)` on a parsed JSON value: `null` is the epoch, `undefined` the invalid date. */
  function DateOf(stamp: JsonStamp): Date {
    match stamp
    case Text(text) => FromIso(text)
    case Null => Instant(0)
    case Missing => InvalidDate
  }

  /** `Date.prototype.toJSON`, which `JSON.stringify` uses: the invalid date becomes `null`. */
  function JsonOf(d: Date): JsonStamp {
    match d
    case Instant(_) => Text(ToIso(d).value)
    case InvalidDate => Null
  }

  /** A top-level member of a parsed document: falsy (absent, null, false, 0, "") or a truthy value. */
  datatype Field<T> = Falsy | Truthy(value: T)

  /**
   * The `links` member of an imported document: an array of link records, or a
   * truthy value on which the mapping throws: one without `map`, or an array
   * holding `null`, whose `createdAt` cannot be read.
   */
  datatype LinkArray = Mappable(items: seq<DocumentLink>) | NotMappable

  /** The result of `JSON.parse` on an imported text: not an object with members, or one. */
  datatype Document =
    | Unparsed
    | Object(links: Field<LinkArray>, folders: Field<seq<string>>, settings: Field<Settings>)

  /** The shape `importData` accepts: the three members truthy and `links` mappable. */
  predicate WellFormed(doc: Document) {
    && doc.Object?
    && doc.links.Truthy? && doc.links.value.Mappable?
    && doc.folders.Truthy?
    && doc.settings.Truthy?
  }

  /** The links of an imported document, their dates rebuilt with `new Date`. */
  function ImportedLinks(items: seq<DocumentLink>): seq<Link> {
    seq(|items|, i requires 0 <= i < |items| => Restamp(items[i], DateOf(items[i].createdAt)))
  }

  /** What `importData` reads back from the text `exportData` wrote. */
  function Reparse(snapshot: ExportDocument): (doc: Document)
    ensures WellFormed(doc)
  {
    var items := seq(|snapshot.links|, i requires 0 <= i < |snapshot.links| =>
      Restamp(snapshot.links[i], JsonOf(snapshot.links[i].createdAt)));
    Object(Truthy(Mappable(items)), Truthy(snapshot.folders), Truthy(snapshot.settings))
  }

  /** Exported links with valid dates are imported equal to what was exported. */
  lemma ReparsedLinksRoundTrip(snapshot: ExportDocument)
    requires AllDated(snapshot.links)
    ensures ImportedLinks(Reparse(snapshot).links.value.items) == snapshot.links
  {
    var items := Reparse(snapshot).links.value.items;
    forall i | 0 <= i < |snapshot.links|
      ensures ImportedLinks(items)[i] == snapshot.links[i]
    {
      IsoRoundTrip(snapshot.links[i].createdAt);
    }
  }

  /** A link whose date is invalid comes back from a snapshot dated at the epoch. */
  lemma InvalidDateExportsAsEpoch(snapshot: ExportDocument, i: nat)
    requires i < |snapshot.links| && snapshot.links[i].createdAt == InvalidDate
    ensures ImportedLinks(Reparse(snapshot).links.value.items)[i].createdAt == Instant(0)
  {
  }

  /** The aggregate `getDatabaseStats` reports (its byte size of the snapshot is not modelled). */
  datatype Stats = Stats(
    totalLinks: nat,
    totalFolders: nat,
    favoriteLinks: nat,
    readLaterLinks: nat,
    totalTags: nat)

  /** `links.flatMap(link => link.tags)`. */
  function AllTags(links: seq<Link>): (r: seq<string>)
    ensures forall t :: t in r <==> exists l :: l in links && t in l.tags
  {
    if links == [] then []
    else
      assert forall l :: l in links <==> l == links[0] || l in links[1..];
      links[0].tags + AllTags(links[1..])
  }

  /** Every tag string that occurs on some link. */
  ghost function TagSet(links: seq<Link>): set<string> {
    set l, t | l in links && t in l.tags :: t
  }

  predicate IsFavorite(l: Link) { l.isFavorite }

  predicate IsReadLater(l: Link) { l.readLater }

  /** The filtered length counts the favourite links. */
  lemma FavoriteCount(links: seq<Link>)
    ensures |Filter(links, IsFavorite)| == |set i | 0 <= i < |links| && links[i].isFavorite|
  {
    FilterCount(links, IsFavorite);
    var counted := set i | 0 <= i < |links| && links[i].isFavorite;
    assert forall i :: i in IndicesFrom(links, IsFavorite, 0) <==> i in counted;
    assert IndicesFrom(links, IsFavorite, 0) == counted;
  }

  /** The filtered length counts the read-later links. */
  lemma ReadLaterCount(links: seq<Link>)
    ensures |Filter(links, IsReadLater)| == |set i | 0 <= i < |links| && links[i].readLater|
  {
    FilterCount(links, IsReadLater);
    var counted := set i | 0 <= i < |links| && links[i].readLater;
    assert forall i :: i in IndicesFrom(links, IsReadLater, 0) <==> i in counted;
    assert IndicesFrom(links, IsReadLater, 0) == counted;
  }

  function ComputeStats(links: seq<Link>, folders: seq<string>): (st: Stats)
    ensures st.totalLinks == |links| && st.totalFolders == |folders|
    ensures st.favoriteLinks == |set i | 0 <= i < |links| && links[i].isFavorite|
    ensures st.readLaterLinks == |set i | 0 <= i < |links| && links[i].readLater|
    ensures st.totalTags == |TagSet(links)|
  {
    var tags := AllTags(links);
    DistinctCount(tags);
    FavoriteCount(links);
    ReadLaterCount(links);
    assert (set t | t in tags) == TagSet(links);
    Stats(|links|, |folders|, |Filter(links, IsFavorite)|, |Filter(links, IsReadLater)|, |Distinct(tags)|)
  }

  /** The browser storage as this application uses it: three slots, one per key. */
  class Store {
    var links: Slot<seq<StoredLink>>
    var folders: Slot<seq<string>>
    var settings: Slot<Settings>

    /** A fresh browser profile: no key is set. */
    constructor ()
      ensures links == Absent && folders == Absent && settings == Absent
    {
      links, folders, settings := Absent, Absent, Absent;
    }

    /**
     * `saveLinks`. `accepted` is the backend's answer to the write (false when
     * the quota is exceeded). Only the links slot is written, and only as a
     * whole: an invalid date or a refused write leaves it as it was.
     */
    method SaveLinks(ls: seq<Link>, accepted: bool)
      modifies this`links
      ensures links == if accepted && AllDated(ls) then Present(SerializeLinks(ls).value) else old(links)
      ensures accepted && AllDated(ls) ==> LoadLinks(links) == ls
    {
      var serialized := SerializeLinks(ls);
      if serialized.Some? && accepted {
        links := Present(serialized.value);
        LinksRoundTrip(ls);
      }
    }

    /** `saveFolders`: writes the list verbatim unless the backend refuses. */
    method SaveFolders(fs: seq<string>, accepted: bool)
      modifies this`folders
      ensures folders == if accepted then Present(fs) else old(folders)
      ensures accepted ==> LoadFolders(folders) == fs
    {
      if accepted {
        folders := Present(fs);
      }
    }

    /** `saveSettings`: writes the record unless the backend refuses. */
    method SaveSettings(s: Settings, accepted: bool)
      modifies this`settings
      ensures settings == if accepted then Present(s) else old(settings)
      ensures accepted && s.language.Some? ==> LoadSettings(settings) == s
    {
      if accepted {
        settings := Present(s);
      }
    }

    /** `localStorage.removeItem(key)`. */
    method RemoveItem(key: Key)
      modifies this
      ensures links == if key == LinksKey then Absent else old(links)
      ensures folders == if key == FoldersKey then Absent else old(folders)
      ensures settings == if key == SettingsKey then Absent else old(settings)
    {
      match key
      case LinksKey => links := Absent;
      case FoldersKey => folders := Absent;
      case SettingsKey => settings := Absent;
    }

    /** Whether `key` is currently unset. */
    predicate IsRemoved(key: Key)
      reads this
    {
      match key
      case LinksKey => links.Absent?
      case FoldersKey => folders.Absent?
      case SettingsKey => settings.Absent?
    }

    /** `clearDatabase`: removes the three keys, after which every load gives its default. */
    method ClearDatabase()
      modifies this
      ensures links == Absent && folders == Absent && settings == Absent
      ensures LoadLinks(links) == []
      ensures LoadFolders(folders) == DefaultFolders
      ensures LoadSettings(settings) == DefaultSettings
    {
      for i := 0 to |StorageKeys|
        invariant forall j | 0 <= j < i :: IsRemoved(StorageKeys[j])
      {
        RemoveItem(StorageKeys[i]);
      }
      assert IsRemoved(StorageKeys[0]) && IsRemoved(StorageKeys[1]) && IsRemoved(StorageKeys[2]);
    }

    /** `exportData`; `now` is the clock reading that becomes `exportDate`. */
    method ExportData(now: TimeValue) returns (doc: ExportDocument)
      ensures doc.links == LoadLinks(links)
      ensures doc.folders == LoadFolders(folders)
      ensures doc.settings == LoadSettings(settings)
      ensures doc.exportDate == ToIso(Instant(now)).value && doc.version == "1.0"
    {
      doc := ExportDocument(LoadLinks(links), LoadFolders(folders), LoadSettings(settings),
                            ToIso(Instant(now)).value, "1.0");
    }

    /**
     * `importData`, as written: rejects a document of the wrong shape without
     * writing anything; otherwise saves links, folders and settings in turn and
     * reports success, whatever became of the three writes.
     */
    method ImportData(doc: Document, acceptLinks: bool, acceptFolders: bool, acceptSettings: bool)
      returns (ok: bool)
      modifies this
      ensures ok == WellFormed(doc)
      ensures !ok ==> links == old(links) && folders == old(folders) && settings == old(settings)
      ensures ok ==> var imported := ImportedLinks(doc.links.value.items);
        links == (if acceptLinks && AllDated(imported) then Present(SerializeLinks(imported).value) else old(links))
      ensures ok ==> folders == if acceptFolders then Present(doc.folders.value) else old(folders)
      ensures ok ==> settings == if acceptSettings then Present(doc.settings.value) else old(settings)
    {
      if !WellFormed(doc) {
        return false;
      }
      var imported := ImportedLinks(doc.links.value.items);
      SaveLinks(imported, acceptLinks);
      SaveFolders(doc.folders.value, acceptFolders);
      SaveSettings(doc.settings.value, acceptSettings);
      return true;
    }

    /**
     * `importData` as evidently intended: a document whose links cannot all be
     * saved is rejected like a malformed one, so success means every accepted
     * write took the document's content.
     */
    method ImportDataAtomic(doc: Document, acceptLinks: bool, acceptFolders: bool, acceptSettings: bool)
      returns (ok: bool)
      modifies this
      ensures ok == (WellFormed(doc) && AllDated(ImportedLinks(doc.links.value.items)))
      ensures !ok ==> links == old(links) && folders == old(folders) && settings == old(settings)
      ensures ok ==> links == if acceptLinks then Present(SerializeLinks(ImportedLinks(doc.links.value.items)).value) else old(links)
      ensures ok ==> folders == if acceptFolders then Present(doc.folders.value) else old(folders)
      ensures ok ==> settings == if acceptSettings then Present(doc.settings.value) else old(settings)
      ensures ok && acceptLinks ==> LoadLinks(links) == ImportedLinks(doc.links.value.items)
      ensures ok && acceptFolders ==> LoadFolders(folders) == doc.folders.value
    {
      if !WellFormed(doc) {
        return false;
      }
      var imported := ImportedLinks(doc.links.value.items);
      if !AllDated(imported) {
        return false;
      }
      SaveLinks(imported, acceptLinks);
      SaveFolders(doc.folders.value, acceptFolders);
      SaveSettings(doc.settings.value, acceptSettings);
      return true;
    }

    /** `getDatabaseStats`, over what the loads return. */
    method GetDatabaseStats() returns (st: Stats)
      ensures st.totalLinks == |LoadLinks(links)| && st.totalFolders == |LoadFolders(folders)|
      ensures st.favoriteLinks == |set i | 0 <= i < |LoadLinks(links)| && LoadLinks(links)[i].isFavorite|
      ensures st.readLaterLinks == |set i | 0 <= i < |LoadLinks(links)| && LoadLinks(links)[i].readLater|
      ensures st.totalTags == |TagSet(LoadLinks(links))|
      ensures st == ComputeStats(LoadLinks(links), LoadFolders(folders))
    {
      st := ComputeStats(LoadLinks(links), LoadFolders(folders));
    }
  }

  /**
   * The import as written reports success for a document whose only link has an
   * unreadable date, writes its folders, and keeps the old links.
   */
  method ImportKeepsOldLinksWitness() returns (ok: bool, linksWritten: bool, foldersWritten: bool)
    ensures ok && !linksWritten && foldersWritten
  {
    var store := new Store();
    var link: DocumentLink := LinkRecord("7", "https://example.com", "", "", "", "Work", [], false, false, Text("soon"));
    var doc := Object(Truthy(Mappable([link])), Truthy(["Archive"]), Truthy(DefaultSettings));
    assert "soon"[3] == 'n' && DigitValue('n') == None;
    assert FromIso("soon") == InvalidDate;
    assert ImportedLinks(doc.links.value.items)[0].createdAt == InvalidDate;
    ok := store.ImportData(doc, true, true, true);
    linksWritten := store.links != Absent;
    foldersWritten := store.folders == Present(["Archive"]);
  }

  /** The corrected import rejects that document and writes nothing. */
  method AtomicImportRejectsWitness() returns (ok: bool, linksWritten: bool, foldersWritten: bool)
    ensures !ok && !linksWritten && !foldersWritten
  {
    var store := new Store();
    var link: DocumentLink := LinkRecord("7", "https://example.com", "", "", "", "Work", [], false, false, Text("soon"));
    var doc := Object(Truthy(Mappable([link])), Truthy(["Archive"]), Truthy(DefaultSettings));
    assert "soon"[3] == 'n' && DigitValue('n') == None;
    assert FromIso("soon") == InvalidDate;
    assert ImportedLinks(doc.links.value.items)[0].createdAt == InvalidDate;
    ok := store.ImportDataAtomic(doc, true, true, true);
    linksWritten := store.links != Absent;
    foldersWritten := store.folders != Absent;
  }

  /**
   * Importing what was just exported leaves every load as it was, provided each
   * stored link's date reads back as a valid date.
   */
  method ExportImportRoundTrip(store: Store, now: TimeValue)
    requires AllDated(LoadLinks(store.links))
    modifies store
    ensures LoadLinks(store.links) == old(LoadLinks(store.links))
    ensures LoadFolders(store.folders) == old(LoadFolders(store.folders))
    ensures LoadSettings(store.settings) == old(LoadSettings(store.settings))
  {
    var snapshot := store.ExportData(now);
    ReparsedLinksRoundTrip(snapshot);
    var ok := store.ImportData(Reparse(snapshot), true, true, true);
    LinksRoundTrip(snapshot.links);
  }
}
