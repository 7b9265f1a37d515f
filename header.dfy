/**
 * The header's local-storage key for the selected bot: one key for the home
 * page and one per chat page, derived from the URL path alone.
 */
module Header {
  import opened Text

  const HomeKey: string := "home_page_selected_bot"

  function ChatKey(segment: string): string
  {
    "chat_" + segment + "_selectedBot"
  }

  /** `'/'` gives the home key; any other path the chat key of its last `/`-segment. */
  function StorageKey(path: string): (key: string)
    ensures key == HomeKey <==> path == "/"
    ensures path != "/" ==> StartsWith(key, "chat_")
  {
    if path == "/" then HomeKey
    else
      var key := ChatKey(LastSegment(path, '/'));
      assert key[0] == 'c' && HomeKey[0] == 'h';
      assert key[..5] == "chat_";
      key
  }

  /**
   * A non-root path's key names the text after its last `/` (the whole path
   * when it has none): a suffix of the path with no `/` in it.
   */
  lemma StorageKeySegment(path: string)
    requires path != "/"
    ensures var seg := LastSegment(path, '/');
      && StorageKey(path) == ChatKey(seg)
      && '/' !in seg && |seg| <= |path| && path[|path| - |seg|..] == seg
      && (|seg| < |path| ==> path[|path| - |seg| - 1] == '/')
      && ('/' !in path ==> seg == path)
  {
    LastSegmentIsSuffix(path, '/');
  }

  /** A chat page `/chat/<id>` keys on its id. */
  lemma ChatPageKey(id: string)
    requires '/' !in id
    ensures StorageKey("/chat/" + id) == ChatKey(id)
  {
    var path := "/chat/" + id;
    SplitNoSep(id, '/');
    SplitAtSep("chat", '/', id);
    assert path == "" + ['/'] + ("chat" + ['/'] + id);
    SplitAtSep("", '/', "chat" + ['/'] + id);
    assert Split(path, '/') == ["", "chat", id];
    assert path != "/" by {
      assert |path| >= 6;
    }
  }

  /** A non-root path ending in `/` has an empty last segment, so its key is `chat__selectedBot`. */
  lemma TrailingSlashKey(path: string)
    requires path != "/" && |path| > 0 && path[|path| - 1] == '/'
    ensures StorageKey(path) == "chat__selectedBot"
  {
    LastSegmentIsSuffix(path, '/');
  }

  /** Different segments give different keys, and no chat key is the home key. */
  lemma ChatKeysDistinct(a: string, b: string)
    ensures ChatKey(a) == ChatKey(b) <==> a == b
    ensures ChatKey(a) != HomeKey
  {
    if ChatKey(a) == ChatKey(b) {
      assert a == ChatKey(a)[5..|ChatKey(a)| - 12];
      assert b == ChatKey(b)[5..|ChatKey(b)| - 12];
    }
    assert ChatKey(a)[0] == 'c';
  }
}
