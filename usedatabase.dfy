/**
 * The start-up hook: seeds an empty store with the sample links, makes sure
 * the four default folders exist, and reports when it is done. It also hands
 * out the store's save operations unchanged.
 */
module UseDatabase {
  import opened Collections
  import opened Records
  import opened MockData
  import opened Database

  /**
   * `Array.from(new Set([...defaultFolders, ...existing]))`: the defaults
   * first, then the other folders in first-occurrence order, no name twice.
   */
  function FolderUnion(existing: seq<string>): (r: seq<string>)
    ensures |r| >= 4 && r[..4] == ["Work", "Study", "Fun", "Personal"]
    ensures NoDuplicates(r)
    ensures forall f :: f in r <==> f in DefaultFolders || f in existing
  {
    PrefixedDistinct(DefaultFolders, existing);
    Distinct(DefaultFolders + existing)
  }

  /** The union is the first-occurrence deduplication of the defaults followed by the existing list. */
  lemma FolderUnionKeepsFirstOccurrences(existing: seq<string>)
    ensures FolderUnion(existing) == FirstOccurrences(DefaultFolders + existing)
  {
    DistinctIsFirstOccurrences(DefaultFolders + existing);
  }

  /** Taking the union of a list that is already a union gives it back unchanged. */
  lemma FolderUnionIdempotent(existing: seq<string>)
    ensures FolderUnion(FolderUnion(existing)) == FolderUnion(existing)
  {
    PrefixedDistinctIdempotent(DefaultFolders, existing);
  }

  /** What the sample links must be for start-up to behave as intended. */
  predicate GoodSeed(seed: seq<Link>) {
    && seed != []
    && AllDated(seed)
    && forall i | 0 <= i < |seed| :: IsDefaultFolder(seed[i].folder)
  }

  /** The six sample links qualify: each is dated and filed under a default folder. */
  lemma MockLinksAreGoodSeed()
    ensures GoodSeed(MockLinks)
  {
  }

  /** The links slot after the seeding step, `seed` being the sample links. */
  function SeededLinks(slot: Slot<seq<StoredLink>>, seed: seq<Link>, accepted: bool): Slot<seq<StoredLink>>
    requires AllDated(seed)
  {
    if LoadLinks(slot) == [] && accepted then Present(SerializeLinks(seed).value) else slot
  }

  /** The folders slot after the union step. */
  function UnitedFolders(slot: Slot<seq<string>>, accepted: bool): Slot<seq<string>> {
    if accepted then Present(FolderUnion(LoadFolders(slot))) else slot
  }

  /** A second start-up, after a first one whose writes went through, writes nothing new. */
  lemma InitializationIdempotent(links: Slot<seq<StoredLink>>, folders: Slot<seq<string>>, seed: seq<Link>, accepted: bool)
    requires GoodSeed(seed)
    ensures SeededLinks(SeededLinks(links, seed, true), seed, accepted) == SeededLinks(links, seed, true)
    ensures UnitedFolders(UnitedFolders(folders, true), accepted) == UnitedFolders(folders, true)
  {
    var seeded := SeededLinks(links, seed, true);
    assert LoadLinks(seeded) != [] by {
      if LoadLinks(links) == [] {
        assert |SerializeLinks(seed).value| == |seed| > 0;
      }
    }
    FolderUnionIdempotent(LoadFolders(folders));
  }

  /** When the sample links were written, each of them lies in a folder of the written folder list. */
  lemma SeededLinksHaveFolders(links: Slot<seq<StoredLink>>, folders: Slot<seq<string>>, seed: seq<Link>)
    requires GoodSeed(seed)
    requires LoadLinks(links) == []
    ensures forall l | l in LoadLinks(SeededLinks(links, seed, true)) ::
      l.folder in LoadFolders(UnitedFolders(folders, true))
  {
  }

  /**
   * The state of the hook: the flag it exposes, the store it works on and the
   * sample links it seeds with (always `MockLinks`).
   */
  class DatabaseHook {
    var isInitialized: bool
    const store: Store
    const seed: seq<Link>

    ghost predicate Valid() {
      GoodSeed(seed)
    }

    constructor (store: Store)
      ensures this.store == store && seed == MockLinks && Valid()
      ensures !isInitialized
    {
      this.store := store;
      seed := MockLinks;
      isInitialized := false;
      MockLinksAreGoodSeed();
    }

    /**
     * `initializeDatabase`. Each `accept` flag is the backend's answer to the
     * corresponding write. The settings are never rewritten, because a loaded
     * record always has a language, so no flag is needed for that write.
     */
    method InitializeDatabase(acceptLinks: bool, acceptFolders: bool)
      requires Valid()
      modifies this, store
      ensures isInitialized
      ensures store.links == SeededLinks(old(store.links), seed, acceptLinks)
      ensures store.folders == UnitedFolders(old(store.folders), acceptFolders)
      ensures store.settings == old(store.settings)
      ensures acceptFolders ==> NoDuplicates(LoadFolders(store.folders))
      ensures acceptFolders ==> LoadFolders(store.folders)[..4] == DefaultFolders
      ensures acceptFolders ==> forall f | f in old(LoadFolders(store.folders)) :: f in LoadFolders(store.folders)
    {
      var existingLinks := LoadLinks(store.links);
      var existingFolders := LoadFolders(store.folders);
      if |existingLinks| == 0 {
        store.SaveLinks(seed, acceptLinks);
      }
      var allFolders := FolderUnion(existingFolders);
      store.SaveFolders(allFolders, acceptFolders);
      var currentSettings := LoadSettings(store.settings);
      if currentSettings.language.None? {
        // The source would save the record with Arabic as its language here;
        // the loaded record always has a language, so this branch is dead.
        assert false;
      }
      isInitialized := true;
    }

    /** `saveLinks` as the hook returns it: the store's own save, same argument. */
    method SaveLinksToDatabase(ls: seq<Link>, accepted: bool)
      modifies store
      ensures store.links == if accepted && AllDated(ls) then Present(SerializeLinks(ls).value) else old(store.links)
      ensures store.folders == old(store.folders) && store.settings == old(store.settings)
    {
      store.SaveLinks(ls, accepted);
    }

    /** `saveFolders` as the hook returns it. */
    method SaveFoldersToDatabase(fs: seq<string>, accepted: bool)
      modifies store
      ensures store.folders == if accepted then Present(fs) else old(store.folders)
      ensures store.links == old(store.links) && store.settings == old(store.settings)
    {
      store.SaveFolders(fs, accepted);
    }

    /** `saveSettings` as the hook returns it. */
    method SaveSettingsToDatabase(s: Settings, accepted: bool)
      modifies store
      ensures store.settings == if accepted then Present(s) else old(store.settings)
      ensures store.links == old(store.links) && store.folders == old(store.folders)
    {
      store.SaveSettings(s, accepted);
    }
  }
}
