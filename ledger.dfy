/** The releases file that the action appends an entry to after each generation and
    reads the last entry back from. */
module ReleasesFile {
  import opened Wrappers
  import opened MapOrder
  import opened ReleaseFormat
  import opened ReleaseParse
  import opened BlockMatch

  /** The file's contents. Opening, reading and writing it can fail in the system; here
      they always succeed. */
  class Ledger {
    var text: string

    constructor(initial: string)
      ensures text == initial
    {
      text := initial;
    }

    /** `UpdateReleasesFile`: appends the entry as `String()` renders it. When the
        entry's fields are clean, reading the file back afterwards yields the entry. */
    method Update(info: ReleasesInfo, repo: string)
      modifies this
      ensures exists order :: IsOrdering(order, info.languages.Keys) && text == old(text) + Render(info, repo, order)
      ensures HeaderClean(info) && LinesClean(info.languages, repo) ==> ParseSpec(text) == Success(Reread(info, repo))
    {
      var entry := String(info, repo);
      ghost var order :| IsOrdering(order, info.languages.Keys) && entry == Render(info, repo, order);
      if HeaderClean(info) && LinesClean(info.languages, repo) {
        ReadBack(text, info, repo, order);
      }
      text := text + entry;
    }

    /** `GetLastReleaseInfo`: parses the file's last entry. */
    method LastReleaseInfo() returns (r: Result<ReleasesInfo, ParseError>)
      ensures r == ParseSpec(text)
    {
      r := ParseReleases(text);
    }
  }
}
