/** The gallery page: the handlers that drive the shared gallery store (paging,
    switching the search word, the error ceiling, fetching tags once), the
    start-up seeding of the word, and the keyword list in the drawer.

    The store's own fetch code is not part of this model: `gallery.fetchSource()`
    and `gallery.fetchTags()` appear only as requests in a log, together with
    every other call that changes something (the store's setters,
    the key-value storage, the router, the layout's scroll and the search
    input). What a request later does to the store is not modelled. */
module GalleryPage {
  import opened JsRuntime

  /** The reserved word for the default trending view. */
  const Ranking := "ranking"
  /** `onLoadMore` stops asking for pages once the store's `errorTimes`
      reaches this. */
  const ErrorCeiling := 3
  /** Storage keys. */
  const WordKey := "word"
  const XRestrictKey := "x_restrict"

  /** A value kept in storage: the page writes strings under "word" and
      booleans under "x_restrict". */
  datatype Json = JStr(str: string) | JBool(flag: bool)

  type Storage = map<string, Json>

  datatype Item = Item(id: string, images: seq<string>)

  datatype Tag = Tag(tag: string, translatedName: Option<string>)

  /** The fields of the gallery store that the page reads or writes. */
  datatype Store = Store(
    page: int,
    xRestrict: bool,
    word: string,
    items: seq<Item>,
    errorTimes: nat,
    tags: seq<Tag>,
    fromIllust: bool,
    isFetchingTags: bool)

  /** One call from the page into a collaborator, in the order it was made. */
  datatype Event =
    | ErrorTimesCleared                                  // gallery.clearErrorTimes()
    | SourceCleared                                      // gallery.clearSource()
    | WordSet(word: string)                              // gallery.setWord(word)
    | FromIllustSet(flag: bool)                          // gallery.setFromIllust(flag)
    | SourceRequested(word: string, xRestrict: bool, page: int)  // gallery.fetchSource()
    | TagsRequested                                      // gallery.fetchTags()
    | StorageWritten(key: string, value: Json)           // Storage.set(key, value)
    | Navigated(path: string)                            // history.push(path)
    | ScrolledToTop                                      // layoutRef.current.toTop()
    | InputValueSet(text: string)                        // inputRef.current.setValue(text)

  /** Everything the handlers can change: the store, the page's own search
      option, the persisted values and the log of calls made so far. */
  datatype PageState = PageState(
    store: Store,
    searchXRestrict: bool,
    storage: Storage,
    log: seq<Event>)

  /** JavaScript truthiness of `Storage.get(key)`; an absent key is undefined. */
  predicate Truthy(v: Option<Json>) {
    match v
    case None => false
    case Some(JStr(s)) => s != ""
    case Some(JBool(b)) => b
  }

  function Get(storage: Storage, key: string): Option<Json> {
    if key in storage then Some(storage[key]) else None
  }

  /** `Storage.get('x_restrict') || false`: the filter the page starts with. */
  function InitialXRestrict(storage: Storage): (x: bool)
    ensures XRestrictKey !in storage ==> !x
    ensures XRestrictKey in storage && storage[XRestrictKey].JBool? ==>
      x == storage[XRestrictKey].flag
  {
    Truthy(Get(storage, XRestrictKey))
  }

  /** The word in storage, when it is a non-empty (truthy) string. */
  function StoredWord(storage: Storage): Option<string> {
    match Get(storage, WordKey)
    case Some(JStr(s)) => if s != "" then Some(s) else None
    case _ => None
  }

  /** `cachedWord ? cachedWord : 'ranking'`: the stored word, or the ranking
      view when nothing usable is stored. Never empty. */
  function CachedWord(storage: Storage): (w: string)
    ensures w != ""
    ensures WordKey !in storage ==> w == Ranking
    ensures w == Ranking || (WordKey in storage && storage[WordKey] == JStr(w))
    ensures WordKey in storage && storage[WordKey].JStr? && storage[WordKey].str != "" ==>
      w == storage[WordKey].str
  {
    match StoredWord(storage)
    case Some(s) => s
    case None => Ranking
  }

  /** The route of the detail view for a numeric search word. */
  function IllustPath(w: string): string {
    "/illust/" + w
  }

  /** What the search input is set to when a keyword is clicked. */
  function InputText(w: string): string {
    if w != Ranking then w else ""
  }

  // ---- The effect of each single call into a collaborator ----

  function WithErrorsCleared(p: PageState): PageState {
    p.(store := p.store.(errorTimes := 0), log := p.log + [ErrorTimesCleared])
  }

  /** clearSource empties the items and puts the page cursor back to 1. */
  function WithSourceCleared(p: PageState): PageState {
    p.(store := p.store.(items := [], page := 1), log := p.log + [SourceCleared])
  }

  function WithWord(p: PageState, w: string): PageState {
    p.(store := p.store.(word := w), log := p.log + [WordSet(w)])
  }

  function WithFromIllust(p: PageState, flag: bool): PageState {
    p.(store := p.store.(fromIllust := flag), log := p.log + [FromIllustSet(flag)])
  }

  /** The store is asked for the page its cursor names, for its current word and filter. */
  function WithSourceRequest(p: PageState): PageState {
    p.(log := p.log + [SourceRequested(p.store.word, p.store.xRestrict, p.store.page)])
  }

  function WithTagsRequest(p: PageState): PageState {
    p.(log := p.log + [TagsRequested])
  }

  function WithStorage(p: PageState, key: string, v: Json): PageState {
    p.(storage := p.storage[key := v], log := p.log + [StorageWritten(key, v)])
  }

  function WithScrollToTop(p: PageState): PageState {
    p.(log := p.log + [ScrolledToTop])
  }

  function WithInputValue(p: PageState, text: string): PageState {
    p.(log := p.log + [InputValueSet(text)])
  }

  function WithNavigation(p: PageState, path: string): PageState {
    p.(log := p.log + [Navigated(path)])
  }

  // ---- The handlers, as transitions of the page state ----

  function FetchSourceStep(p: PageState, isFirstLoad: bool): PageState {
    var s := if isFirstLoad then p.store.(page := 1) else p.store;
    WithSourceRequest(p.(store := s.(xRestrict := p.searchXRestrict)))
  }

  function LoadMoreStep(p: PageState): PageState {
    if p.store.errorTimes < ErrorCeiling then FetchSourceStep(p, false) else p
  }

  function RefreshStep(p: PageState): PageState {
    FetchSourceStep(WithScrollToTop(WithSourceCleared(WithErrorsCleared(p))), true)
  }

  function FetchTagsStep(p: PageState): PageState {
    if |p.store.tags| == 0 then WithTagsRequest(p) else p
  }

  function SearchStep(p: PageState, w: string, isNumeric: string -> bool): PageState {
    if w == "" then p
    else if isNumeric(w) then WithNavigation(p, IllustPath(w))
    else
      var p1 := WithErrorsCleared(WithStorage(p, WordKey, JStr(w)));
      FetchSourceStep(WithScrollToTop(WithWord(WithSourceCleared(p1), w)), true)
  }

  function OptionsChangeStep(p: PageState, xRestrict: bool): PageState {
    WithStorage(p, XRestrictKey, JBool(xRestrict)).(searchXRestrict := xRestrict)
  }

  function KeywordClickStep(p: PageState, w: string): PageState {
    var p1 := WithInputValue(WithWord(p, w), InputText(w));
    WithStorage(RefreshStep(p1), WordKey, JStr(w))
  }

  /** The events with which mounting starts: the stored word shown in the
      search input, unless it is missing or is "ranking". */
  function InputEvents(storage: Storage): (events: seq<Event>)
    ensures |events| <= 1
    ensures events != [] <==> StoredWord(storage).Some? && StoredWord(storage).value != Ranking
    ensures events != [] ==> events[0] == InputValueSet(StoredWord(storage).value)
  {
    var saved := StoredWord(storage);
    if saved.Some? && saved.value != Ranking then [InputValueSet(saved.value)] else []
  }

  /** The start of the mount effect: a stored word other than "ranking" is
      shown in the search input. */
  function MountInput(p: PageState): PageState {
    p.(log := p.log + InputEvents(p.storage))
  }

  /** The first step of a fresh mount: `entry=ranking` selects and persists the
      ranking view, anything else selects the cached word. */
  function SeedWord(p: PageState, entry: Option<string>): PageState {
    if entry == Some(Ranking) then WithStorage(WithWord(p, Ranking), WordKey, JStr(Ranking))
    else WithWord(p, CachedWord(p.storage))
  }

  /** The calls with which seeding the word is logged. */
  function SeedEvents(p: PageState, entry: Option<string>): seq<Event> {
    if entry == Some(Ranking) then [WordSet(Ranking), StorageWritten(WordKey, JStr(Ranking))]
    else [WordSet(CachedWord(p.storage))]
  }

  /** The calls a fresh mount makes after seeding the word: page 1 for an empty
      store, then tags when there are none. */
  function FetchEvents(p: PageState, entry: Option<string>): seq<Event> {
    var w := if entry == Some(Ranking) then Ranking else CachedWord(p.storage);
    (if |p.store.items| == 0 then [SourceRequested(w, p.searchXRestrict, 1)] else [])
    + (if |p.store.tags| == 0 then [TagsRequested] else [])
  }

  /** The mount effect when the page is not coming back from a detail view:
      seed the word, fetch page 1 if the store is empty, then fetch tags. */
  function MountFresh(p: PageState, entry: Option<string>): PageState {
    InitialFetch(SeedWord(p, entry))
  }

  /** After seeding: page 1 when the store holds no items, then tags. */
  function InitialFetch(q: PageState): PageState {
    FetchTagsStep(if |q.store.items| == 0 then FetchSourceStep(q, true) else q)
  }

  function MountStep(p: PageState, entry: Option<string>, isNumeric: string -> bool): PageState {
    var p1 := MountInput(p);
    if p1.store.fromIllust then WithFromIllust(SearchStep(p1, p1.store.word, isNumeric), false)
    else MountFresh(p1, entry)
  }

  // ---- Counting the page requests in a log ----

  /** How many times the store was asked to fetch a page. */
  function Requests(log: seq<Event>): nat {
    if log == [] then 0
    else (if log[0].SourceRequested? then 1 else 0) + Requests(log[1..])
  }

  lemma {:induction false} RequestsAppend(a: seq<Event>, b: seq<Event>)
    ensures Requests(a + b) == Requests(a) + Requests(b)
  {
    if a == [] {
      assert a + b == b;
    } else {
      assert (a + b)[1..] == a[1..] + b;
      RequestsAppend(a[1..], b);
    }
  }

  /** A log's request count is 0 exactly when none of its events is a page
      request. */
  lemma {:induction false} RequestsCountsRequests(log: seq<Event>)
    ensures Requests(log) == 0 <==> forall i :: 0 <= i < |log| ==> !log[i].SourceRequested?
  {
    if log != [] {
      RequestsCountsRequests(log[1..]);
      assert forall i :: 1 <= i < |log| ==> log[i] == log[1..][i - 1];
    }
  }

  // ---- Properties of the handlers ----

  /** fetchSource(true) moves the cursor to page 1 and fetchSource(false) keeps
      it; either way the page's filter is copied into the store and exactly
      one request goes out, for the store's word, that filter and that page. */
  lemma FetchSourceRequestsOnce(p: PageState, isFirstLoad: bool)
    ensures var r := FetchSourceStep(p, isFirstLoad);
      var page := if isFirstLoad then 1 else p.store.page;
      && r.store == p.store.(page := page, xRestrict := p.searchXRestrict)
      && r.storage == p.storage && r.searchXRestrict == p.searchXRestrict
      && r.log == p.log + [SourceRequested(p.store.word, p.searchXRestrict, page)]
      && Requests(r.log) == Requests(p.log) + 1
  {
    var page := if isFirstLoad then 1 else p.store.page;
    RequestsAppend(p.log, [SourceRequested(p.store.word, p.searchXRestrict, page)]);
  }

  /** Below the ceiling, loading more asks for the next page under the current
      cursor; at three or more errors nothing at all happens. */
  lemma LoadMoreRespectsCeiling(p: PageState)
    ensures p.store.errorTimes >= 3 ==> LoadMoreStep(p) == p
    ensures p.store.errorTimes < 3 ==>
      && LoadMoreStep(p) == p.(store := p.store.(xRestrict := p.searchXRestrict),
                               log := p.log + [SourceRequested(p.store.word, p.searchXRestrict, p.store.page)])
      && Requests(LoadMoreStep(p).log) == Requests(p.log) + 1
  {
    if p.store.errorTimes < 3 {
      FetchSourceRequestsOnce(p, false);
    }
  }

  /** An empty word is ignored; a numeric word only navigates to its detail
      view, leaving store, storage and requests as they were. */
  lemma SearchGuards(p: PageState, w: string, isNumeric: string -> bool)
    ensures w == "" ==> SearchStep(p, w, isNumeric) == p
    ensures w != "" && isNumeric(w) ==>
      && SearchStep(p, w, isNumeric) == p.(log := p.log + [Navigated("/illust/" + w)])
      && Requests(SearchStep(p, w, isNumeric).log) == Requests(p.log)
  {
    if w != "" && isNumeric(w) {
      RequestsAppend(p.log, [Navigated(IllustPath(w))]);
    }
  }

  /** The search transition: persist the word, clear the error counter, clear
      the items, set the word, scroll to the top, and ask for page 1 of the new
      word, in that order and with exactly one page request. */
  lemma SearchTransition(p: PageState, w: string, isNumeric: string -> bool)
    requires w != "" && !isNumeric(w)
    ensures var r := SearchStep(p, w, isNumeric);
      && r == p.(storage := p.storage[WordKey := JStr(w)],
                 store := p.store.(errorTimes := 0, items := [], word := w, page := 1,
                                   xRestrict := p.searchXRestrict),
                 log := p.log + [StorageWritten(WordKey, JStr(w)), ErrorTimesCleared, SourceCleared,
                                 WordSet(w), ScrolledToTop, SourceRequested(w, p.searchXRestrict, 1)])
      && Requests(r.log) == Requests(p.log) + 1
  {
    var tail := [StorageWritten(WordKey, JStr(w)), ErrorTimesCleared, SourceCleared,
                 WordSet(w), ScrolledToTop, SourceRequested(w, p.searchXRestrict, 1)];
    assert SearchStep(p, w, isNumeric) ==
      p.(storage := p.storage[WordKey := JStr(w)],
         store := p.store.(errorTimes := 0, items := [], word := w, page := 1,
                           xRestrict := p.searchXRestrict),
         log := p.log + tail);
    RequestsAppend(p.log, tail);
    EndsWithOneRequest(tail);
  }

  /** A log whose only page request is its last event holds exactly one. */
  lemma EndsWithOneRequest(log: seq<Event>)
    requires log != [] && log[|log| - 1].SourceRequested?
    requires forall i :: 0 <= i < |log| - 1 ==> !log[i].SourceRequested?
    ensures Requests(log) == 1
  {
    var n := |log| - 1;
    assert log == log[..n] + [log[n]];
    RequestsAppend(log[..n], [log[n]]);
    RequestsCountsRequests(log[..n]);
    RequestsSnoc([], log[n]);
  }

  /** Refreshing clears the error counter and the items and asks again for
      page 1 of the word already in the store. */
  lemma RefreshRestartsCurrentWord(p: PageState)
    ensures RefreshStep(p) ==
      p.(store := p.store.(errorTimes := 0, items := [], page := 1, xRestrict := p.searchXRestrict),
         log := p.log + [ErrorTimesCleared, SourceCleared, ScrolledToTop,
                         SourceRequested(p.store.word, p.searchXRestrict, 1)])
  {
  }

  /** Clicking a keyword sets the word, shows it in the search input (blank for
      the ranking view), refreshes, and only then persists the word. */
  lemma KeywordClickProtocol(p: PageState, w: string)
    ensures KeywordClickStep(p, w) ==
      p.(storage := p.storage[WordKey := JStr(w)],
         store := p.store.(errorTimes := 0, items := [], word := w, page := 1,
                           xRestrict := p.searchXRestrict),
         log := p.log + [WordSet(w), InputValueSet(if w == Ranking then "" else w),
                         ErrorTimesCleared, SourceCleared, ScrolledToTop,
                         SourceRequested(w, p.searchXRestrict, 1), StorageWritten(WordKey, JStr(w))])
  {
  }

  /** For a word that a search would accept, clicking it as a keyword leaves
      the store, the storage and the number of page requests exactly as
      searching for it does; only the order of the calls differs. */
  lemma KeywordClickAgreesWithSearch(p: PageState, w: string, isNumeric: string -> bool)
    requires w != "" && !isNumeric(w)
    ensures KeywordClickStep(p, w).store == SearchStep(p, w, isNumeric).store
    ensures KeywordClickStep(p, w).storage == SearchStep(p, w, isNumeric).storage
    ensures Requests(KeywordClickStep(p, w).log) == Requests(SearchStep(p, w, isNumeric).log)
  {
    SearchTransition(p, w, isNumeric);
    KeywordClickProtocol(p, w);
    var tail := [WordSet(w), InputValueSet(InputText(w)), ErrorTimesCleared, SourceCleared,
                 ScrolledToTop, SourceRequested(w, p.searchXRestrict, 1), StorageWritten(WordKey, JStr(w))];
    RequestsAppend(p.log, tail);
    EndsWithOneRequest(tail[..6]);
    RequestsSnoc(tail[..6], tail[6]);
    assert tail == tail[..6] + [tail[6]];
  }

  /** Tags are requested only while the store has none, so once they are in
      a further call does nothing. */
  lemma FetchTagsOnlyWhenEmpty(p: PageState)
    ensures |p.store.tags| > 0 ==> FetchTagsStep(p) == p
    ensures |p.store.tags| == 0 ==> FetchTagsStep(p) == p.(log := p.log + [TagsRequested])
  {
  }

  /** Changing the filter persists it, so the next page to start up reads the
      same filter back. */
  lemma OptionsChangePersists(p: PageState, xRestrict: bool)
    ensures OptionsChangeStep(p, xRestrict).searchXRestrict == xRestrict
    ensures InitialXRestrict(OptionsChangeStep(p, xRestrict).storage) == xRestrict
    ensures OptionsChangeStep(p, xRestrict).store == p.store
    ensures OptionsChangeStep(p, xRestrict) ==
      p.(storage := p.storage[XRestrictKey := JBool(xRestrict)], searchXRestrict := xRestrict,
         log := p.log + [StorageWritten(XRestrictKey, JBool(xRestrict))])
  {
  }

  /** A search persists its word, so the next start-up without an entry
      parameter seeds the store with that same word. */
  lemma SearchWordSurvivesRestart(p: PageState, w: string, isNumeric: string -> bool,
                                  q: PageState, entry: Option<string>)
    requires w != "" && !isNumeric(w)
    requires q.storage == SearchStep(p, w, isNumeric).storage && !q.store.fromIllust
    requires entry != Some(Ranking)
    ensures MountStep(q, entry, isNumeric).store.word == w
  {
    SearchTransition(p, w, isNumeric);
  }

  /** What a search does to the store and the storage does not depend on the
      calls made before it. */
  lemma SearchIgnoresLog(p: PageState, q: PageState, w: string, isNumeric: string -> bool)
    requires p.store == q.store && p.storage == q.storage && p.searchXRestrict == q.searchXRestrict
    ensures SearchStep(p, w, isNumeric).store == SearchStep(q, w, isNumeric).store
    ensures SearchStep(p, w, isNumeric).storage == SearchStep(q, w, isNumeric).storage
  {
  }

  /** Mounting on the way back from a detail view re-runs the search for the
      store's word and then clears the flag. */
  lemma MountFromIllustSearchesAgain(p: PageState, entry: Option<string>, isNumeric: string -> bool)
    requires p.store.fromIllust
    ensures var r := MountStep(p, entry, isNumeric);
      && r.store == SearchStep(p, p.store.word, isNumeric).store.(fromIllust := false)
      && r.storage == SearchStep(p, p.store.word, isNumeric).storage
      && r.searchXRestrict == p.searchXRestrict
      && r.log == SearchStep(MountInput(p), p.store.word, isNumeric).log + [FromIllustSet(false)]
      && Requests(r.log) ==
           Requests(p.log) + (if p.store.word != "" && !isNumeric(p.store.word) then 1 else 0)
  {
    var w := p.store.word;
    var p1 := MountInput(p);
    MountInputRequestsNothing(p);
    SearchIgnoresLog(p1, p, w, isNumeric);
    var s := SearchStep(p1, w, isNumeric);
    RequestsSnoc(s.log, FromIllustSet(false));
    SearchGuards(p1, w, isNumeric);
    if w != "" && !isNumeric(w) {
      SearchTransition(p1, w, isNumeric);
    }
  }

  /** Appending one event adds one to the count exactly when it is a page request. */
  lemma RequestsSnoc(log: seq<Event>, e: Event)
    ensures Requests(log + [e]) == Requests(log) + (if e.SourceRequested? then 1 else 0)
  {
    RequestsAppend(log, [e]);
    assert [e][1..] == [];
  }

  /** Showing the stored word in the input changes nothing but the log, to
      which it adds exactly that one call, and requests nothing. */
  lemma MountInputRequestsNothing(p: PageState)
    ensures MountInput(p).store == p.store && MountInput(p).storage == p.storage
    ensures MountInput(p).searchXRestrict == p.searchXRestrict
    ensures MountInput(p).log == p.log +
      (if StoredWord(p.storage).Some? && StoredWord(p.storage).value != Ranking
       then [InputValueSet(StoredWord(p.storage).value)] else [])
    ensures Requests(MountInput(p).log) == Requests(p.log)
  {
    var saved := StoredWord(p.storage);
    if saved.Some? && saved.value != Ranking {
      RequestsSnoc(p.log, InputValueSet(saved.value));
    } else {
      assert p.log + [] == p.log;
    }
  }

  /** A fresh mount only appends to the log, and the page request it makes
      for an empty store comes after everything logged before the mount. */
  lemma MountFreshExtendsLog(p: PageState, entry: Option<string>)
    ensures var r := MountFresh(p, entry);
      && |p.log| < |r.log| && r.log[..|p.log|] == p.log
      && (|p.store.items| == 0 ==>
            SourceRequested(r.store.word, p.searchXRestrict, 1) in r.log[|p.log|..])
  {
    var p1 := SeedWord(p, entry);
    var p2 := if |p1.store.items| == 0 then FetchSourceStep(p1, true) else p1;
    var r := FetchTagsStep(p2);
    assert p1.log[..|p.log|] == p.log;
    assert p2.log[..|p1.log|] == p1.log;
    assert r.log[..|p2.log|] == p2.log;
    if |p1.store.items| == 0 {
      var req := SourceRequested(p1.store.word, p.searchXRestrict, 1);
      assert r.log[|p2.log| - 1] == req;
      assert r.log[|p.log|..][|p2.log| - 1 - |p.log|] == req;
    }
  }

  /** A fresh mount's word, storage, items and request count, and its exact
      log. The clauses on the last call and on where the request lies are
      corollaries of the exact log, kept for reading; `MountFreshStore` gives
      the rest of the store. */
  lemma MountFreshSeedsWord(p: PageState, entry: Option<string>)
    ensures var r := MountFresh(p, entry);
      && r.store.word == (if entry == Some(Ranking) then Ranking else CachedWord(p.storage))
      && r.storage == (if entry == Some(Ranking) then p.storage[WordKey := JStr(Ranking)] else p.storage)
      && r.store.items == p.store.items
      && Requests(r.log) == Requests(p.log) + (if |p.store.items| == 0 then 1 else 0)
      && (|p.store.items| == 0 ==> SourceRequested(r.store.word, p.searchXRestrict, 1) in r.log)
      && (r.log[|r.log| - 1] == TagsRequested <==> |p.store.tags| == 0)
      && r.log == p.log + SeedEvents(p, entry) + FetchEvents(p, entry)
  {
    MountFreshLog(p, entry);
    var p1 := SeedWord(p, entry);
    SeedWordRequestsNothing(p, entry);
    var p2 := if |p1.store.items| == 0 then FetchSourceStep(p1, true) else p1;
    if |p1.store.items| == 0 {
      FetchSourceRequestsOnce(p1, true);
      assert p2.log[|p2.log| - 1] == SourceRequested(p1.store.word, p.searchXRestrict, 1);
    }
    assert !p2.log[|p2.log| - 1].TagsRequested?;
    if |p2.store.tags| == 0 {
      RequestsSnoc(p2.log, TagsRequested);
    }
  }

  /** A fresh mount logs the seeding calls, then the page-1 request for an
      empty store, then the tag request when there are no tags, and nothing else. */
  lemma MountFreshLog(p: PageState, entry: Option<string>)
    ensures MountFresh(p, entry).log == p.log + SeedEvents(p, entry) + FetchEvents(p, entry)
  {
    var q := SeedWord(p, entry);
    var w := if entry == Some(Ranking) then Ranking else CachedWord(p.storage);
    assert q.log == p.log + SeedEvents(p, entry);
    assert q.store == p.store.(word := w) && q.searchXRestrict == p.searchXRestrict;
    InitialFetchLog(q);
  }

  /** The initial fetch logs a page-1 request for an empty store, then a tag
      request when there are no tags, and changes nothing else in the log. */
  lemma InitialFetchLog(q: PageState)
    ensures InitialFetch(q).log == q.log
      + (if |q.store.items| == 0 then [SourceRequested(q.store.word, q.searchXRestrict, 1)] else [])
      + (if |q.store.tags| == 0 then [TagsRequested] else [])
  {
    if |q.store.items| == 0 {
      assert FetchSourceStep(q, true).log == q.log + [SourceRequested(q.store.word, q.searchXRestrict, 1)];
    } else {
      assert q.log + [] == q.log;
    }
  }

  /** A fresh mount changes the store only in its word and, for an empty
      store, in the page cursor (back to 1) and the filter copied from the
      page's option; the option itself is kept. */
  lemma MountFreshStore(p: PageState, entry: Option<string>)
    ensures var r := MountFresh(p, entry);
      var w := if entry == Some(Ranking) then Ranking else CachedWord(p.storage);
      && r.store == p.store.(word := w,
                             page := if |p.store.items| == 0 then 1 else p.store.page,
                             xRestrict := if |p.store.items| == 0 then p.searchXRestrict else p.store.xRestrict)
      && r.searchXRestrict == p.searchXRestrict
  {
  }

  /** The same for the whole mount effect when `fromIllust` is not set. */
  lemma MountStore(p: PageState, entry: Option<string>, isNumeric: string -> bool)
    requires !p.store.fromIllust
    ensures var r := MountStep(p, entry, isNumeric);
      var w := if entry == Some(Ranking) then Ranking else CachedWord(p.storage);
      && r.store == p.store.(word := w,
                             page := if |p.store.items| == 0 then 1 else p.store.page,
                             xRestrict := if |p.store.items| == 0 then p.searchXRestrict else p.store.xRestrict)
      && r.searchXRestrict == p.searchXRestrict
  {
    MountFreshStore(MountInput(p), entry);
  }

  /** Seeding the word changes only the word, the stored word for the ranking
      view, and the log, to which it appends calls that are not page requests. */
  lemma SeedWordRequestsNothing(p: PageState, entry: Option<string>)
    ensures var q := SeedWord(p, entry);
      && q.store == p.store.(word := if entry == Some(Ranking) then Ranking else CachedWord(p.storage))
      && q.storage == (if entry == Some(Ranking) then p.storage[WordKey := JStr(Ranking)] else p.storage)
      && q.searchXRestrict == p.searchXRestrict
      && |p.log| < |q.log| && q.log[..|p.log|] == p.log
      && !q.log[|q.log| - 1].TagsRequested?
      && Requests(q.log) == Requests(p.log)
      && q.log == p.log + SeedEvents(p, entry)
  {
    if entry == Some(Ranking) {
      RequestsSnoc(p.log, WordSet(Ranking));
      RequestsSnoc(p.log + [WordSet(Ranking)], StorageWritten(WordKey, JStr(Ranking)));
    } else {
      RequestsSnoc(p.log, WordSet(CachedWord(p.storage)));
    }
  }

  /** A fresh mount seeds the word from the entry parameter, else from storage,
      else the ranking view; asks for page 1 only when the store holds no
      items; and asks for tags, as its last call, only when it holds none.
      The prefix and position clauses are corollaries of the exact log;
      `MountStore` gives the rest of the store. */
  lemma MountSeedsWord(p: PageState, entry: Option<string>, isNumeric: string -> bool)
    requires !p.store.fromIllust
    ensures var r := MountStep(p, entry, isNumeric);
      && r.store.word == (if entry == Some(Ranking) then Ranking else CachedWord(p.storage))
      && r.store.word != ""
      && r.storage == (if entry == Some(Ranking) then p.storage[WordKey := JStr(Ranking)] else p.storage)
      && r.store.items == p.store.items
      && Requests(r.log) == Requests(p.log) + (if |p.store.items| == 0 then 1 else 0)
      && |p.log| < |r.log| && r.log[..|p.log|] == p.log
      && r.log[..|p.log| + |InputEvents(p.storage)|] == p.log + InputEvents(p.storage)
      && (|p.store.items| == 0 ==>
            SourceRequested(r.store.word, p.searchXRestrict, 1)
              in r.log[|p.log| + |InputEvents(p.storage)|..])
      && (r.log[|r.log| - 1] == TagsRequested <==> |p.store.tags| == 0)
      && r.log == p.log + InputEvents(p.storage) + SeedEvents(p, entry) + FetchEvents(p, entry)
  {
    MountInputRequestsNothing(p);
    assert MountStep(p, entry, isNumeric) == MountFresh(MountInput(p), entry);
    MountLog(p, entry, isNumeric);
    MountFreshSeedsWord(MountInput(p), entry);
    MountInputThenFresh(p, entry);
  }

  /** Without a detail view to return from, the mount logs the input update,
      the seeding calls, the page-1 request for an empty store and the tag
      request when there are no tags, in that order and nothing else. */
  lemma MountLog(p: PageState, entry: Option<string>, isNumeric: string -> bool)
    requires !p.store.fromIllust
    ensures MountStep(p, entry, isNumeric).log ==
      p.log + InputEvents(p.storage) + SeedEvents(p, entry) + FetchEvents(p, entry)
  {
    var p1 := MountInput(p);
    assert MountStep(p, entry, isNumeric) == MountFresh(p1, entry);
    MountFreshLog(p1, entry);
    assert SeedEvents(p1, entry) == SeedEvents(p, entry);
    assert FetchEvents(p1, entry) == FetchEvents(p, entry);
  }

  /** The log of a fresh mount, input update included, extends the earlier
      log by the input's `setValue` call and puts the page-1 request after it. */
  lemma MountInputThenFresh(p: PageState, entry: Option<string>)
    ensures var r := MountFresh(MountInput(p), entry);
      && |p.log| < |r.log| && r.log[..|p.log|] == p.log
      && r.log[..|p.log| + |InputEvents(p.storage)|] == p.log + InputEvents(p.storage)
      && (|p.store.items| == 0 ==>
            SourceRequested(r.store.word, p.searchXRestrict, 1)
              in r.log[|p.log| + |InputEvents(p.storage)|..])
  {
    var p1 := MountInput(p);
    var r := MountFresh(p1, entry);
    MountFreshExtendsLog(p1, entry);
    var pre := p.log + InputEvents(p.storage);
    assert p1.log == pre && |pre| == |p.log| + |InputEvents(p.storage)|;
    assert r.log[..|pre|] == pre;
    assert r.log[..|p.log|] == pre[..|p.log|] == p.log;
  }

  // ---- The keyword list in the drawer ----

  /** How an entry is labelled: the translated "Ranking" message for the
      ranking entry, the tag's translated name for the others. */
  datatype Caption = RankingMessage | TranslatedName(name: Option<string>)

  datatype Entry = Entry(tag: string, caption: Caption, highlighted: bool)

  /** The drawer's content: a spinner while tags are being fetched, otherwise
      an optional entry for the current word followed by the keyword entries. */
  datatype Drawer = Spinner | KeywordList(extra: Option<string>, entries: seq<Entry>)

  /** The keywords: "ranking" put in front of the store's tags. */
  function Keywords(tags: seq<Tag>): seq<Tag> {
    [Tag(Ranking, None)] + tags
  }

  /** One keyword's entry: the highlight test `elem.tag === word ||
      (word === 'ranking' && ranking)` holds exactly when the tag is the word. */
  function EntryFor(elem: Tag, word: string): (e: Entry)
    ensures e.tag == elem.tag
    ensures e.highlighted <==> elem.tag == word
    ensures e.caption == RankingMessage <==> elem.tag == Ranking
  {
    var ranking := elem.tag == Ranking;
    Entry(elem.tag,
          if ranking then RankingMessage else TranslatedName(elem.translatedName),
          elem.tag == word || (word == Ranking && ranking))
  }

  /** The scan for the word among the keywords (the `found` flag). */
  ghost predicate Listed(keywords: seq<Tag>, word: string) {
    exists j :: 0 <= j < |keywords| && keywords[j].tag == word
  }

  /** The word is among the keywords exactly when it is "ranking" or a tag. */
  lemma ListedIff(tags: seq<Tag>, word: string)
    ensures Listed(Keywords(tags), word) <==> word == Ranking || exists t :: t in tags && t.tag == word
  {
    var keywords := Keywords(tags);
    if t :| t in tags && t.tag == word {
      var j :| 0 <= j < |tags| && tags[j] == t;
      assert keywords[j + 1] == t;
    }
    if word == Ranking {
      assert keywords[0].tag == word;
    }
    if j :| 0 <= j < |keywords| && keywords[j].tag == word {
      if j > 0 {
        assert keywords[j] == tags[j - 1];
      }
    }
  }

  /** The drawer as rendered from the store. It lists "ranking" and then every
      tag in order; an entry is highlighted exactly when its tag is the current
      word; and the extra entry for the word appears exactly when the word is
      no tag, is not "ranking" and is not blank. */
  ghost function KeywordDrawer(store: Store): (d: Drawer)
    ensures d.Spinner? <==> store.isFetchingTags
    ensures d.KeywordList? ==>
      && |d.entries| == |store.tags| + 1
      && d.entries[0].tag == Ranking && d.entries[0].caption == RankingMessage
      && (forall i :: 0 <= i < |store.tags| ==> d.entries[i + 1].tag == store.tags[i].tag)
      && (forall i :: 0 <= i < |d.entries| ==> (d.entries[i].highlighted <==> d.entries[i].tag == store.word))
    ensures d.KeywordList? ==>
      (d.extra.Some? <==>
        (forall t :: t in store.tags ==> t.tag != store.word) && store.word != Ranking && !IsBlank(store.word))
    ensures d.KeywordList? && d.extra.Some? ==> d.extra.value == store.word
  {
    if store.isFetchingTags then Spinner
    else
      var keywords := Keywords(store.tags);
      var word := store.word;
      var shown := !Listed(keywords, word) && word != Ranking && Trim(word) != "";
      ListedIff(store.tags, word);
      var entries := seq(|keywords|, i requires 0 <= i < |keywords| => EntryFor(keywords[i], word));
      assert forall i :: 0 <= i < |store.tags| ==> entries[i + 1].tag == store.tags[i].tag by {
        forall i | 0 <= i < |store.tags| ensures entries[i + 1].tag == store.tags[i].tag {
          assert keywords[i + 1] == store.tags[i];
        }
      }
      KeywordList(if shown then Some(word) else None, entries)
  }

  /** Whenever the word is not blank, the drawer marks it in exactly one way:
      either the extra entry shows it and no keyword is highlighted, or some
      keyword entry is highlighted and there is no extra entry. */
  lemma CurrentWordMarkedOnce(store: Store)
    requires !store.isFetchingTags && !IsBlank(store.word)
    ensures var d := KeywordDrawer(store);
      d.extra.Some? <==> forall i :: 0 <= i < |d.entries| ==> !d.entries[i].highlighted
  {
  }

  // ---- The page component ----

  /** The gallery page bound to the shared store. `isNumeric` stands for the
      page's floating-point test `!isNaN(parseFloat(w)) && isFinite(Number(w))`. */
  class Gallery {
    var store: Store
    var searchXRestrict: bool
    var storage: Storage
    var log: seq<Event>
    const isNumeric: string -> bool

    function State(): PageState
      reads this
    {
      PageState(store, searchXRestrict, storage, log)
    }

    /** The page's first render: the search option is read from storage. */
    constructor (store: Store, storage: Storage, isNumeric: string -> bool)
      ensures State() == PageState(store, InitialXRestrict(storage), storage, [])
      ensures this.isNumeric == isNumeric
    {
      this.store := store;
      this.storage := storage;
      this.isNumeric := isNumeric;
      searchXRestrict := Truthy(Get(storage, XRestrictKey));
      log := [];
    }

    // -- Calls into collaborators --

    method ClearErrorTimes()
      modifies this
      ensures State() == WithErrorsCleared(old(State()))
    {
      store := store.(errorTimes := 0);
      log := log + [ErrorTimesCleared];
    }

    method ClearSource()
      modifies this
      ensures State() == WithSourceCleared(old(State()))
    {
      store := store.(items := [], page := 1);
      log := log + [SourceCleared];
    }

    method SetWord(w: string)
      modifies this
      ensures State() == WithWord(old(State()), w)
    {
      store := store.(word := w);
      log := log + [WordSet(w)];
    }

    method SetFromIllust(flag: bool)
      modifies this
      ensures State() == WithFromIllust(old(State()), flag)
    {
      store := store.(fromIllust := flag);
      log := log + [FromIllustSet(flag)];
    }

    method RequestSource()
      modifies this
      ensures State() == WithSourceRequest(old(State()))
    {
      log := log + [SourceRequested(store.word, store.xRestrict, store.page)];
    }

    method RequestTags()
      modifies this
      ensures State() == WithTagsRequest(old(State()))
    {
      log := log + [TagsRequested];
    }

    method StorageSet(key: string, v: Json)
      modifies this
      ensures State() == WithStorage(old(State()), key, v)
    {
      storage := storage[key := v];
      log := log + [StorageWritten(key, v)];
    }

    method ToTop()
      modifies this
      ensures State() == WithScrollToTop(old(State()))
    {
      log := log + [ScrolledToTop];
    }

    method SetInputValue(text: string)
      modifies this
      ensures State() == WithInputValue(old(State()), text)
    {
      log := log + [InputValueSet(text)];
    }

    method HistoryPush(path: string)
      modifies this
      ensures State() == WithNavigation(old(State()), path)
    {
      log := log + [Navigated(path)];
    }

    // -- The page's handlers --

    method FetchSource(isFirstLoad: bool)
      modifies this
      ensures State() == FetchSourceStep(old(State()), isFirstLoad)
    {
      if isFirstLoad {
        store := store.(page := 1);
      }
      store := store.(xRestrict := searchXRestrict);
      RequestSource();
    }

    method OnLoadMore()
      modifies this
      ensures State() == LoadMoreStep(old(State()))
    {
      if store.errorTimes < ErrorCeiling {
        FetchSource(false);
      }
    }

    method RefreshContent()
      modifies this
      ensures State() == RefreshStep(old(State()))
    {
      ClearErrorTimes();
      ClearSource();
      ToTop();
      FetchSource(true);
    }

    method FetchTags()
      modifies this
      ensures State() == FetchTagsStep(old(State()))
    {
      if |store.tags| == 0 {
        RequestTags();
      }
    }

    method OnSearch(w: string)
      modifies this
      ensures State() == SearchStep(old(State()), w, isNumeric)
    {
      if w == "" {
        return;
      }
      if isNumeric(w) {
        HistoryPush(IllustPath(w));
      } else {
        StorageSet(WordKey, JStr(w));
        ClearErrorTimes();
        ClearSource();
        SetWord(w);
        ToTop();
        FetchSource(true);
      }
    }

    method OnSearchOptionsChange(xRestrict: bool)
      modifies this
      ensures State() == OptionsChangeStep(old(State()), xRestrict)
    {
      StorageSet(XRestrictKey, JBool(xRestrict));
      searchXRestrict := xRestrict;
    }

    method OnKeywordClick(w: string)
      modifies this
      ensures State() == KeywordClickStep(old(State()), w)
    {
      SetWord(w);
      if w != Ranking {
        SetInputValue(w);
      } else {
        SetInputValue("");
      }
      RefreshContent();
      StorageSet(WordKey, JStr(w));
    }

    /** The page's mount effect; `entry` is the `entry` URL parameter. */
    method Mount(entry: Option<string>)
      modifies this
      ensures State() == MountStep(old(State()), entry, isNumeric)
    {
      var saved := StoredWord(storage);
      if saved.Some? && saved.value != Ranking {
        SetInputValue(saved.value);
      } else {
        assert log + [] == log;
      }
      ghost var mounted := State();
      assert mounted == MountInput(old(State()));
      if store.fromIllust {
        OnSearch(store.word);
        SetFromIllust(false);
      } else {
        if entry == Some(Ranking) {
          SetWord(Ranking);
          StorageSet(WordKey, JStr(Ranking));
        } else {
          var cached := StoredWord(storage);
          SetWord(if cached.Some? then cached.value else Ranking);
        }
        if |store.items| == 0 {
          FetchSource(true);
        }
        FetchTags();
      }
    }

    /** The drawer's keyword list, built by prepending "ranking" to the tags
        and scanning them for the current word. */
    method RenderKeywords() returns (d: Drawer)
      ensures d == KeywordDrawer(store)
    {
      var keywords := [Tag(Ranking, None)] + store.tags;
      if store.isFetchingTags {
        return Spinner;
      }
      var word := store.word;
      var found := false;
      var i := 0;
      while i < |keywords|
        invariant 0 <= i <= |keywords|
        invariant !found
        invariant forall j :: 0 <= j < i ==> keywords[j].tag != word
      {
        if keywords[i].tag == word {
          found := true;
          break;
        }
        i := i + 1;
      }
      assert found <==> Listed(keywords, word);
      var extra := if !found && word != Ranking && Trim(word) != "" then Some(word) else None;
      d := KeywordList(extra, seq(|keywords|, k requires 0 <= k < |keywords| => EntryFor(keywords[k], word)));
    }
  }
}
