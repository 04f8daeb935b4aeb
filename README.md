# terminal_rss core, modelled in Dafny

This project models the core of `terminal_rss`, a terminal RSS reader written in JavaScript, and proves properties of the model. It has three parts.

- **XML node classes** (`xml_parser.dfy`, module `XmlParser`). `LeafNode` holds a tag and a text. `ParentNode` holds a tag and an ordered list of children. Both refuse a missing or empty tag, and a leaf also refuses a missing or empty text, at construction and in the setters. `toString` produces the canonical `<tag>...</tag>` form, recursively. The two node classes are Dafny classes whose methods update their fields. A node's value (`Xml`: `Leaf` or `Parent`) is what serialisation depends on, and a parent holds its children as such values.
- **Feed and entry extraction** (`rss_parser.dfy`, module `Rss`). `RSSFeed` and `RSSEntry` carry their defaults. `RSSParser` resolves each field by trying paths in order with a per-field fallback string, and maps every `channel/item` node to an entry. The node operations `search(path)` and `getInnerText()` are called at src/rssParser.js:27-29 and src/rssParser.js:41 and defined nowhere in src/. They are the parameters of the datatype `Tree`, and every property is proved for any `search` and `innerText`.
- **Crawler string rules** (`crawl.dfy`, module `Crawl`). These are: choose the first `<link>` whose type announces an RSS or Atom feed; resolve a root-relative href against the base URL, both for that link and for every anchor of a page; and remove one trailing slash from a pathname in `normalizeURL`. The HTML and URL parsing libraries are outside the model. Their outputs (href strings, link records, hostname and pathname) are the inputs.

`js_values.dfy` (module `JsValues`) holds the JavaScript notions the modules share. `None` stands for a missing argument. Where the source tests an argument for truthiness (`!tag`, `!text`, `!htmlBody`), `None` covers both `null` and `undefined`, which that test treats alike. Where a default parameter applies (src/rssParser.js:11 and src/rssParser.js:25), `None` means `undefined` or omitted only. `Truthy` is the test `!s` on a string argument. `Result` and `Outcome` stand for a call that returns or throws.

A thrown construction error is modelled by a static `Create` method that returns `Failure(error)`. The anonymous Dafny constructor is the part of the JavaScript constructor that runs after its checks have passed. A setter that throws returns `Fail(error)` and leaves the node unchanged.

Notes on the code itself:
- `search` and `getInnerText` are called at src/rssParser.js:27-29 and src/rssParser.js:41 and defined nowhere in src/, so they stay abstract.
- tests/rssParser.test.js:3 imports a `TextNode` that src/xmlParser.js:77 does not export. The only node kinds are `LeafNode`, which serialises as `<tag>text</tag>`, and `ParentNode`.
- Entries have no `read` flag and feeds have no last-fetch marker.

## Model

| member | source | states |
|---|---|---|
| XmlParser.LeafNode.Create | src/xmlParser.js:27-33 | Succeeds exactly when both tag and text are present and non-empty. A missing text is reported first (`TextNotFound`), then a missing tag (`TagNotFound`). On success the fresh node is valid and holds exactly the given tag and text. |
| XmlParser.LeafNode.constructor | src/xmlParser.js:2-10 | Stores the given non-empty tag and text. |
| XmlParser.LeafNode.GetTag | src/xmlParser.js:12-14 | Returns the node's tag, which is never empty. |
| XmlParser.LeafNode.SetTag | src/xmlParser.js:15-21 | A present, non-empty tag replaces the tag and passes. A missing/empty one fails with `TagNotFound` and leaves the tag unchanged. The text never changes and the node stays valid. |
| XmlParser.LeafNode.GetText | src/xmlParser.js:39-41 | Returns the node's text, which is never empty. |
| XmlParser.LeafNode.SetText | src/xmlParser.js:42-47 | A present, non-empty text replaces the text. A missing/empty one fails with `TextNotFound` and leaves the text unchanged. The tag never changes. |
| XmlParser.LeafNode.ToString | src/xmlParser.js:35-37 | Equals the serialisation of the node's value. Its length is twice the tag's length plus the text's plus 5, the five characters of `<`, `>`, `</` and `>`. |
| XmlParser.ParentNode.Create | src/xmlParser.js:50-53 | Succeeds exactly when the tag is present and non-empty, and otherwise fails with `TagNotFound`. With the children omitted, the new node has no children. Otherwise it has exactly the given list. |
| XmlParser.ParentNode.constructor | src/xmlParser.js:51-53 | Stores the given tag and children. |
| XmlParser.ParentNode.GetTag | src/xmlParser.js:12-14 | Returns the node's tag, which is never empty. |
| XmlParser.ParentNode.SetTag | src/xmlParser.js:15-21 | Same refusal rule as for leaves. The children never change. |
| XmlParser.ParentNode.GetChildren | src/xmlParser.js:64-66 | Returns exactly the current child list. |
| XmlParser.ParentNode.SetChildren | src/xmlParser.js:67-69 | The child list becomes exactly the given list. The tag is unchanged. |
| XmlParser.ParentNode.AddChild | src/xmlParser.js:70-72 | The child list becomes the old list with the node appended as the last child. Earlier children and the tag are unchanged. |
| XmlParser.ParentNode.ToString | src/xmlParser.js:55-62 | The accumulating loop yields the serialisation of the node's value: the opening tag, each child's serialisation in child order, then the closing tag. |
| XmlParser.SerializeAllAppend | src/xmlParser.js:57-59 | Serialising a child list split in two gives the serialisations of the two parts, concatenated. |
| XmlParser.ChildInOrder | src/xmlParser.js:55-62 | Child `k`'s serialisation appears whole in its parent's, after those of the children before it and before those of the children after it. |
| XmlParser.SerializeAfterAppend | src/xmlParser.js:70-72 | After a child is appended, the parent's serialisation gains that child's serialisation just before the closing tag. |
| XmlParser.SerializeFourChildren | tests/xmlParser.test.js:13-24 | A parent with four children serialises as its opening tag, the four children's serialisations in order, then its closing tag. |
| XmlParser.ParentNodeExample | tests/xmlParser.test.js:13-24 | Replays the test through the class contracts alone: an empty `parent1`, then four added children, the second a nested `parent2` holding `leaf2`. The result serialises exactly that tree, children in the order they were added. |
| Rss.NewFeed | src/rssParser.js:2-7 | A new feed has title `No Title`, link `No Link`, description `No description` and no entries. |
| Rss.NewEntry | src/rssParser.js:11-16 | Each given argument is stored unchanged. Each omitted one becomes `No Title`, `No Link`, `No Description` or `No PubDate` respectively. |
| Rss.RssParser.FirstResults | src/rssParser.js:26-31 | The loop with early return: empty exactly when no path's search finds anything. Otherwise it is the search result of the first path, in list order, that finds something. |
| Rss.RssParser.FirstHitExists | src/rssParser.js:26-31 | If some path finds something, there is a first such path in list order. |
| Rss.RssParser.ParsePaths | src/rssParser.js:25-35 | Returns the fallback when no path finds anything, including when `paths` is empty. Otherwise returns the inner text of node 0 found by the first path that finds something. |
| Rss.RssParser.ParsePathsDefault | src/rssParser.js:25-35 | The same rule, with an omitted fallback meaning `No Data Found`. |
| Rss.RssParser.ParsePathsIgnoresLaterPaths | src/rssParser.js:26-30 | Once some path in `paths` finds something, appending further paths does not change the result. |
| Rss.RssParser.ParseOnePath | src/rssParser.js:25-35 | With a single path, the result is the inner text of its first node if the search finds any, else the fallback. |
| Rss.RssParser.ParseEntryTitle | src/rssParser.js:57-62 | The inner text of the first `title` node below the item, or `No Entry Title`. |
| Rss.RssParser.ParseEntryLink | src/rssParser.js:63-68 | The inner text of the first `link` node below the item, or `No Entry Link`. |
| Rss.RssParser.ParseEntryDescription | src/rssParser.js:69-74 | The inner text of the first `description` node below the item, or `No Entry Description`. |
| Rss.RssParser.ParseEntryPubDate | src/rssParser.js:75-80 | The inner text of the first `pubDate` node below the item, or `No Entry PubDate`. |
| Rss.RssParser.EntryOf | src/rssParser.js:43-50 | Each field of an item's entry is resolved on its own, from its own path or its own fallback. A missing field never affects the others. |
| Rss.RssParser.ParseEntries | src/rssParser.js:37-55 | One entry per node of `search(root, "channel/item")`, in the same order: entry `i` is built from node `i`. No nodes gives no entries. |
| Rss.RssParser.ParseFeedTitle | src/rssParser.js:82-87 | The inner text of the first `channel/title` node, or `No Feed Title`. |
| Rss.RssParser.ParseFeedDescription | src/rssParser.js:89-94 | The inner text of the first `channel/description` node, or `No Feed Description`. |
| Rss.RssParser.ParseFeedLink | src/rssParser.js:96-101 | The inner text of the first `channel/link` node, or `No Feed Link`. |
| Crawl.Resolve | src/crawl.js:121-125 | An href starting with `/` gives `baseURL + href`. Any other href, the empty one included, is returned unchanged. In both cases the result ends with the href. |
| Crawl.GetRssLink | src/crawl.js:117-131 | `None` (the source's `null`) exactly when no link has type `application/rss+xml` or `application/atom+xml`, including for no links at all. Otherwise returns the resolved href of the first such link in list order. |
| Crawl.FirstFeedLinkExists | src/crawl.js:119-127 | If some link has a feed type, there is a first such link in list order. |
| Crawl.GetRssLinkIgnoresLaterLinks | src/crawl.js:119-127 | Links after the first feed-typed one do not change the result. |
| Crawl.GetUrlsFromHtml | src/crawl.js:19-29 | One output per input href, in the same order. Output `i` is `baseURL + href` if href `i` starts with `/`, else href `i` unchanged. |
| Crawl.GetLinksFromHtml | src/crawl.js:32-47 | A missing or empty body gives no links. Otherwise the result is exactly the page's selected `<link>` elements, in order. |
| Crawl.TrimTrailingSlash | src/crawl.js:7-9 | Removes exactly one `/` when the pathname ends with one. Otherwise the pathname is unchanged. |
| Crawl.NormalizeUrl | src/crawl.js:4-12 | The hostname followed directly by the pathname, less at most one trailing `/`. A pathname without a trailing slash is kept whole. |
| Crawl.TrailingSlashIgnored | src/crawl.js:6-11 | A pathname without a trailing slash, and the same pathname with one `/` appended, trim to the same path. |

## Left out

- `main.js`: it fetches a feed over the network and logs it.
- `getPageHTML` and `crawlPage` in `src/crawl.js`: asynchronous fetching, HTTP status and content-type checks, and recursive crawling that updates a page-count dictionary over the network.
- `sameDomain`, and the `new URL(...)` parsing in `normalizeURL`, need the WHATWG URL parser. `NormalizeUrl` takes the parsed hostname and pathname as inputs.
- HTML parsing and `querySelectorAll` in `getURLsFromHTML` and `getLinksFromHTML` come from a library. `GetUrlsFromHtml` takes the anchors' href strings. `GetLinksFromHtml` takes the selection as the parameter `selectLinks`. An anchor whose `href` is `undefined` is not modelled, since it would make the source throw.
- Every `console.log` call.
- The meaning of `search` and `getInnerText`: they are not defined in these files, so the model keeps them abstract. It describes no tokenizer, tree builder or path query. Instead, `innerText` returns a string; if the real `getInnerText` could return `undefined`, `RSSEntry` would store its default in place of the missing text, and this model does not capture that case.
- Aliasing of child nodes: a `ParentNode` stores the caller's children array by reference, and holds child node objects. The model gives each parent its own list of child values, taken when the child is added or the list is set. It therefore does not capture that `addChild` also changes the caller's array, or that a later `setTag`/`setText` on an added child object changes its parent's serialisation.
- XmlParser.ParentNode.Create: treats an explicit `null` children argument like an omitted one. In the source the default `[]` applies only to an omitted or `undefined` argument, and a node built with `null` would throw in `toString`.
- `null` passed to `RSSEntry` or as the fallback of `_parsePaths`: the defaults at src/rssParser.js:11 and src/rssParser.js:25 apply only to `undefined` or an omitted argument, so JavaScript would store or return `null` itself. Strings in this model cannot be `null`. `Rss.NewEntry` and `Rss.RssParser.ParsePaths` therefore take only strings or omitted arguments. Every call inside src/rssParser.js passes a string.
- `setChildren` with a non-array argument (`null`, `undefined`, anything else): src/xmlParser.js:67-69 accepts it without a check, and the next `toString` or `addChild` would then throw. `XmlParser.ParentNode.SetChildren` takes only a list of nodes, so this failure is not modelled.
- The error message strings are kept in `XmlParser.Message`. The model does not compare them.
- XmlParser.ParentNodeExample: the test at `tests/xmlParser.test.js:23` compares against one literal string. This member instead states the result as the serialisation of the built tree. By `SerializeFourChildren`, that is the four children's serialisations in order, which is the string the test writes out.
