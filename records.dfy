/**
 * The records the organiser keeps: links, settings and folder names, with the
 * defaults the application falls back to.
 */
module Records {
  import opened Wrappers
  import opened Timestamp

  /**
   * A saved bookmark. The type of `createdAt` varies with where the record
   * lives: a `Date` in memory, text in the store, a JSON value in an imported
   * document.
   */
  datatype LinkRecord<Stamp> = LinkRecord(
    id: string,
    url: string,
    title: string,
    description: string,
    image: string,
    folder: string,
    tags: seq<string>,
    isFavorite: bool,
    readLater: bool,
    createdAt: Stamp)

  type Link = LinkRecord<Date>

  /** `{...link, createdAt: stamp}`: the same record with another `createdAt`. */
  function Restamp<A, B>(link: LinkRecord<A>, stamp: B): LinkRecord<B> {
    LinkRecord(link.id, link.url, link.title, link.description, link.image,
               link.folder, link.tags, link.isFavorite, link.readLater, stamp)
  }

  datatype Language = Ar | En

  datatype Layout = Grid | List | Compact

  /**
   * The settings record. `language` is `None` when the stored record has a
   * falsy `language` (missing, null or empty), as records written before the
   * field existed do.
   */
  datatype Settings = Settings(
    darkMode: bool,
    language: Option<Language>,
    viewLayout: Layout,
    currentView: string)

  const DefaultSettings: Settings := Settings(false, Some(Ar), Grid, "all")

  /** The four folders that always exist and cannot be deleted, in display order. */
  const DefaultFolders: seq<string> := ["Work", "Study", "Fun", "Personal"]

  predicate IsDefaultFolder(name: string) {
    name in DefaultFolders
  }
}
