/** Extraction of a feed and its entries from an XML tree, with a fallback
    string for every field the tree does not provide.

    The two node operations the extractor uses, `search(path)` (the nodes a
    path finds below a node, in order) and `getInnerText()`, are defined
    outside this model; they are parameters here (`Tree`), and every
    property below holds whatever they do. */
module Rss {
  import opened JsValues

  datatype RssEntry = RssEntry(title: string, link: string, description: string, pubDate: string)

  datatype RssFeed = RssFeed(title: string, link: string, description: string, entry: seq<RssEntry>)

  /** `new RSSFeed()`. */
  function NewFeed(): (f: RssFeed)
    ensures f.title == "No Title" && f.link == "No Link" && f.description == "No description"
    ensures f.entry == []
  {
    RssFeed("No Title", "No Link", "No description", [])
  }

  /** `new RSSEntry(title, link, description, pubDate)`: each argument is
      stored as given; an omitted one takes its default. */
  function NewEntry(title: Option<string>, link: Option<string>, description: Option<string>,
                    pubDate: Option<string>): (e: RssEntry)
    ensures title.Some? ==> e.title == title.value
    ensures link.Some? ==> e.link == link.value
    ensures description.Some? ==> e.description == description.value
    ensures pubDate.Some? ==> e.pubDate == pubDate.value
    ensures title.None? ==> e.title == "No Title"
    ensures link.None? ==> e.link == "No Link"
    ensures description.None? ==> e.description == "No Description"
    ensures pubDate.None? ==> e.pubDate == "No PubDate"
  {
    RssEntry(OrDefault(title, "No Title"), OrDefault(link, "No Link"),
             OrDefault(description, "No Description"), OrDefault(pubDate, "No PubDate"))
  }

  /** The node operations the extractor relies on. */
  datatype Tree<!N> = Tree(search: (N, string) -> seq<N>, innerText: N -> string)

  const DefaultFallback := "No Data Found"
  const ItemPath := "channel/item"

  datatype RssParser<!N> = RssParser(tree: Tree<N>, root: N) {

    /** Searching `path` from `start` finds at least one node. */
    predicate Hit(start: N, path: string)
    {
      tree.search(start, path) != []
    }

    predicate NoHit(start: N, paths: seq<string>)
    {
      forall i | 0 <= i < |paths| :: !Hit(start, paths[i])
    }

    /** `paths[k]` is the first path, in list order, that finds something. */
    predicate IsFirstHit(start: N, paths: seq<string>, k: int)
    {
      0 <= k < |paths| && Hit(start, paths[k]) && forall j | 0 <= j < k :: !Hit(start, paths[j])
    }

    /** The loop with early return that `_parsePaths` and `_parseEntries`
        share: the nodes found by the first path that finds any, or none. */
    function FirstResults(start: N, paths: seq<string>): (r: seq<N>)
      ensures r == [] <==> NoHit(start, paths)
      ensures forall k | IsFirstHit(start, paths, k) :: r == tree.search(start, paths[k])
      decreases |paths|
    {
      if paths == [] then []
      else
        var nodes := tree.search(start, paths[0]);
        if |nodes| > 0 then nodes
        else
          var rest := FirstResults(start, paths[1..]);
          assert forall k | IsFirstHit(start, paths, k) :: IsFirstHit(start, paths[1..], k - 1);
          rest
    }

    /** Every non-empty result comes from a first hit. */
    lemma {:induction false} FirstHitExists(start: N, paths: seq<string>)
      requires !NoHit(start, paths)
      ensures exists k :: IsFirstHit(start, paths, k)
      decreases |paths|
    {
      if Hit(start, paths[0]) {
        assert IsFirstHit(start, paths, 0);
      } else {
        assert !NoHit(start, paths[1..]) by {
          var i :| 0 <= i < |paths| && Hit(start, paths[i]);
          assert paths[1..][i - 1] == paths[i];
        }
        FirstHitExists(start, paths[1..]);
        var k :| IsFirstHit(start, paths[1..], k);
        assert IsFirstHit(start, paths, k + 1);
      }
    }

    /** `_parsePaths(start, paths, fallback)`. */
    function ParsePaths(start: N, paths: seq<string>, fallback: string): (r: string)
      ensures NoHit(start, paths) ==> r == fallback
      ensures forall k | IsFirstHit(start, paths, k) :: r == tree.innerText(tree.search(start, paths[k])[0])
    {
      var nodes := FirstResults(start, paths);
      if |nodes| > 0 then tree.innerText(nodes[0]) else fallback
    }

    /** `_parsePaths(start, paths)` with its fallback omitted. */
    function ParsePathsDefault(start: N, paths: seq<string>): (r: string)
      ensures NoHit(start, paths) ==> r == "No Data Found"
      ensures forall k | IsFirstHit(start, paths, k) :: r == tree.innerText(tree.search(start, paths[k])[0])
    {
      ParsePaths(start, paths, DefaultFallback)
    }

    /** Once a path finds something, the paths after it are never consulted. */
    lemma ParsePathsIgnoresLaterPaths(start: N, paths: seq<string>, later: seq<string>, fallback: string)
      requires !NoHit(start, paths)
      ensures ParsePaths(start, paths + later, fallback) == ParsePaths(start, paths, fallback)
    {
      FirstHitExists(start, paths);
      var k :| IsFirstHit(start, paths, k);
      assert forall j | 0 <= j <= k :: (paths + later)[j] == paths[j];
      assert IsFirstHit(start, paths + later, k);
    }

    /** With a single path: its first node's inner text, or the fallback. */
    lemma ParseOnePath(start: N, path: string, fallback: string)
      ensures ParsePaths(start, [path], fallback)
           == if Hit(start, path) then tree.innerText(tree.search(start, path)[0]) else fallback
    {
      if Hit(start, path) {
        assert IsFirstHit(start, [path], 0);
      }
    }

    /** `_parseEntryTitle(item)`. */
    function ParseEntryTitle(item: N): (r: string)
      ensures r == if Hit(item, "title") then tree.innerText(tree.search(item, "title")[0]) else "No Entry Title"
    {
      ParseOnePath(item, "title", "No Entry Title");
      ParsePaths(item, ["title"], "No Entry Title")
    }

    /** `_parseEntryLink(item)`. */
    function ParseEntryLink(item: N): (r: string)
      ensures r == if Hit(item, "link") then tree.innerText(tree.search(item, "link")[0]) else "No Entry Link"
    {
      ParseOnePath(item, "link", "No Entry Link");
      ParsePaths(item, ["link"], "No Entry Link")
    }

    /** `_parseEntryDescription(item)`. */
    function ParseEntryDescription(item: N): (r: string)
      ensures r == if Hit(item, "description") then tree.innerText(tree.search(item, "description")[0])
                   else "No Entry Description"
    {
      ParseOnePath(item, "description", "No Entry Description");
      ParsePaths(item, ["description"], "No Entry Description")
    }

    /** `_parseEntryPubDate(item)`. */
    function ParseEntryPubDate(item: N): (r: string)
      ensures r == if Hit(item, "pubDate") then tree.innerText(tree.search(item, "pubDate")[0]) else "No Entry PubDate"
    {
      ParseOnePath(item, "pubDate", "No Entry PubDate");
      ParsePaths(item, ["pubDate"], "No Entry PubDate")
    }

    /** The entry built for one `channel/item` node. Each field comes from
        its own path below the item, or from that field's fallback; no field
        depends on another. */
    function EntryOf(item: N): (e: RssEntry)
      ensures e.title
           == if Hit(item, "title") then tree.innerText(tree.search(item, "title")[0]) else "No Entry Title"
      ensures e.link
           == if Hit(item, "link") then tree.innerText(tree.search(item, "link")[0]) else "No Entry Link"
      ensures e.description
           == if Hit(item, "description") then tree.innerText(tree.search(item, "description")[0])
              else "No Entry Description"
      ensures e.pubDate
           == if Hit(item, "pubDate") then tree.innerText(tree.search(item, "pubDate")[0]) else "No Entry PubDate"
    {
      NewEntry(Some(ParseEntryTitle(item)), Some(ParseEntryLink(item)),
               Some(ParseEntryDescription(item)), Some(ParseEntryPubDate(item)))
    }

    /** `_parseEntries()`: one entry per `channel/item` node, in order. */
    function ParseEntries(): (r: seq<RssEntry>)
      ensures |r| == |tree.search(root, ItemPath)|
      ensures forall i | 0 <= i < |r| :: r[i] == EntryOf(tree.search(root, ItemPath)[i])
    {
      var nodes := FirstResults(root, [ItemPath]);
      if |nodes| > 0 then
        assert IsFirstHit(root, [ItemPath], 0);
        seq(|nodes|, i requires 0 <= i < |nodes| => EntryOf(nodes[i]))
      else
        assert !Hit(root, [ItemPath][0]);
        []
    }

    /** `parseFeedTitle()`. */
    function ParseFeedTitle(): (r: string)
      ensures r == if Hit(root, "channel/title") then tree.innerText(tree.search(root, "channel/title")[0])
                   else "No Feed Title"
    {
      ParseOnePath(root, "channel/title", "No Feed Title");
      ParsePaths(root, ["channel/title"], "No Feed Title")
    }

    /** `parseFeedDescription()`. */
    function ParseFeedDescription(): (r: string)
      ensures r == if Hit(root, "channel/description") then tree.innerText(tree.search(root, "channel/description")[0])
                   else "No Feed Description"
    {
      ParseOnePath(root, "channel/description", "No Feed Description");
      ParsePaths(root, ["channel/description"], "No Feed Description")
    }

    /** `parseFeedLink()`. */
    function ParseFeedLink(): (r: string)
      ensures r == if Hit(root, "channel/link") then tree.innerText(tree.search(root, "channel/link")[0])
                   else "No Feed Link"
    {
      ParseOnePath(root, "channel/link", "No Feed Link");
      ParsePaths(root, ["channel/link"], "No Feed Link")
    }
  }
}
