/** The session coordinator of the main page: the component state and refs
    of the page, the revision table it writes to, and the loading-state
    events it broadcasts. Each handler of the page is one method; an awaited
    database call completes inside the method that issues it, and its
    success or failure is a parameter. */
module SessionCoordinator {
  import opened JsValues
  import opened Payloads
  import opened History

  /** The signed-in user as the page sees it. */
  datatype User = User(id: string)

  datatype Tab = Chat | Document | Quality

  /** The progress indicator: visibility and percentage. */
  datatype Progress = Progress(visible: bool, value: real)

  /** The events broadcast on the loading-state topic of the session. */
  datatype LoadingEvent = WaitingForFeature | FeatureReceived | WaitingForMetrics | MetricsReceived

  /** The percentage shown as soon as work is requested. */
  const StartProgress: real := 12.0

  /** Saves need a user with a non-empty id (`currentUser?.id`). */
  predicate CanPersist(user: Option<User>) {
    user.Some? && user.value.id != ""
  }

  /** The condition under which a content change raises the "document updated"
      badge: on a mobile layout, a real change, away from the document tab,
      to a non-empty document. */
  predicate RaisesBadge(isMobile: bool, content: string, previous: string, tab: Tab) {
    isMobile && content != previous && tab != Document && content != ""
  }

  class Coordinator {
    /** The opaque session token, fixed for the life of the page. */
    const sessionId: string

    var content: string
    var user: Option<User>
    var overallScore: Option<real>
    var savedEstimation: Option<Metrics>
    var progress: Progress
    var startSignal: int
    var activeTab: Tab
    var isMobile: bool
    /** The content the badge effect saw last time it ran. */
    var previousContent: string
    var hasDocumentUpdate: bool

    /** The revision table and the clock that stamps new rows. */
    var table: seq<Row>
    var clock: nat

    /** Events sent on the page's own loading-state channel, in order. */
    var outbox: seq<LoadingEvent>
    /** Events sent again on the short-lived fail-safe channel, in order. */
    var failSafeOutbox: seq<LoadingEvent>

    /** Between handlers: the table is well formed, the badge effect has seen
        the current content, and the badge is off on the document tab. */
    ghost predicate Valid()
      reads this
    {
      WellFormed(table, clock) &&
      previousContent == content &&
      (activeTab == Document ==> !hasDocumentUpdate)
    }

    /** The page as first rendered, over an existing table. */
    constructor (sessionId: string, user: Option<User>, isMobile: bool, table: seq<Row>, clock: nat)
      requires WellFormed(table, clock)
      ensures Valid()
      ensures this.sessionId == sessionId && this.user == user && this.isMobile == isMobile
      ensures this.table == table && this.clock == clock
      ensures content == "" && overallScore.None? && savedEstimation.None?
      ensures progress == Progress(false, 0.0) && startSignal == 0
      ensures activeTab == Chat && !hasDocumentUpdate
      ensures outbox == [] && failSafeOutbox == []
    {
      this.sessionId := sessionId;
      this.user := user;
      this.isMobile := isMobile;
      this.table := table;
      this.clock := clock;
      content := "";
      previousContent := "";
      overallScore := None;
      savedEstimation := None;
      progress := Progress(false, 0.0);
      startSignal := 0;
      activeTab := Chat;
      hasDocumentUpdate := false;
      outbox := [];
      failSafeOutbox := [];
    }

    /** Work was requested: show progress at its starting value, bump the
        start signal, and announce `waiting-for-feature` on both channels. */
    method StartWaiting()
      requires Valid()
      modifies this`progress, this`startSignal, this`outbox, this`failSafeOutbox
      ensures Valid()
      ensures progress == Progress(true, StartProgress)
      ensures startSignal == old(startSignal) + 1
      ensures outbox == old(outbox) + [WaitingForFeature]
      ensures failSafeOutbox == old(failSafeOutbox) + [WaitingForFeature]
    {
      progress := Progress(true, StartProgress);
      startSignal := startSignal + 1;
      outbox := outbox + [WaitingForFeature];
      failSafeOutbox := failSafeOutbox + [WaitingForFeature];
    }

    /** A panel reports its progress: the indicator becomes exactly that pair. */
    method HandleProgressChange(visible: bool, value: real)
      requires Valid()
      modifies this`progress
      ensures Valid()
      ensures progress == Progress(visible, value)
    {
      progress := Progress(visible, value);
    }

    /** The badge effect that runs after a render in which the content, the
        tab or the layout changed: raise the badge on a qualifying change,
        then remember the content. */
    method TrackDocumentUpdate()
      modifies this`hasDocumentUpdate, this`previousContent
      ensures hasDocumentUpdate == (old(hasDocumentUpdate) || RaisesBadge(isMobile, content, old(previousContent), activeTab))
      ensures previousContent == content
    {
      if RaisesBadge(isMobile, content, previousContent, activeTab) {
        hasDocumentUpdate := true;
      }
      previousContent := content;
    }

    /** A panel edits the document (the chat panel's `onFeatureChange` or the
        editor's `onChange`); the badge effect runs after the render. */
    method SetContent(text: string)
      requires Valid()
      modifies this`content, this`previousContent, this`hasDocumentUpdate
      ensures Valid()
      ensures content == text
      ensures hasDocumentUpdate == (old(hasDocumentUpdate) || RaisesBadge(isMobile, text, old(content), activeTab))
    {
      content := text;
      TrackDocumentUpdate();
    }

    /** The badge effect that runs after the tab changed: the document tab
        clears the badge. */
    method ClearBadgeOnDocumentTab()
      modifies this`hasDocumentUpdate
      ensures hasDocumentUpdate == (old(hasDocumentUpdate) && activeTab != Document)
    {
      if activeTab == Document {
        hasDocumentUpdate := false;
      }
    }

    /** The user switches tab; both badge effects run after the render. */
    method SelectTab(t: Tab)
      requires Valid()
      modifies this`activeTab, this`hasDocumentUpdate, this`previousContent
      ensures Valid()
      ensures activeTab == t
      ensures hasDocumentUpdate == (old(hasDocumentUpdate) && t != Document)
      ensures previousContent == old(previousContent)
    {
      activeTab := t;
      TrackDocumentUpdate();
      ClearBadgeOnDocumentTab();
    }

    /** Persist one revision for the current user in this session. Without a
        user id, or when the insert fails, the table is unchanged; otherwise
        exactly one row is appended, stamped with the clock. */
    method SaveFeatureToDb(featureBefore: string, featureAfter: string, userMessage: string,
                           comment: string, estimation: Option<Metrics>, insertFails: bool)
      requires Valid()
      modifies this`table, this`clock
      ensures Valid()
      ensures CanPersist(user) && !insertFails ==>
        table == old(table) + [Row(user.value.id, sessionId, featureBefore, featureAfter,
                                   userMessage, comment, estimation, old(clock))]
        && clock == old(clock) + 1
      ensures !(CanPersist(user) && !insertFails) ==> table == old(table) && clock == old(clock)
    {
      if !CanPersist(user) {
        return;
      }
      if !insertFails {
        table := table + [Row(user.value.id, sessionId, featureBefore, featureAfter,
                              userMessage, comment, estimation, clock)];
        clock := clock + 1;
      }
    }

    /** Attach a metrics payload to the newest row of this user's session.
        Without a user id, when the update fails, or when the session has no
        row yet, the table is unchanged. */
    method SaveEstimationToDb(metrics: Metrics, updateFails: bool)
      requires Valid()
      modifies this`table
      ensures Valid()
      ensures CanPersist(user) && !updateFails ==>
        table == AttachEstimation(old(table), ForSession(user.value.id, sessionId), metrics)
      ensures !(CanPersist(user) && !updateFails) ==> table == old(table)
    {
      if !CanPersist(user) {
        return;
      }
      if !updateFails {
        table := AttachEstimation(table, ForSession(user.value.id, sessionId), metrics);
      }
    }

    /** The `feature-update` handler. An update without a truthy `content` or
        `text` changes nothing. Otherwise the document becomes the new text,
        a revision from the content held at that moment to the new text is
        saved with `userMessage` and `comment` defaulting to empty, and only
        then `feature-received` and `waiting-for-metrics` are announced on
        both channels. */
    method HandleFeatureUpdate(p: Option<FeaturePayload>, insertFails: bool)
      requires Valid()
      modifies this`content, this`previousContent, this`hasDocumentUpdate,
               this`table, this`clock, this`outbox, this`failSafeOutbox
      ensures Valid()
      ensures FeatureText(p).None? ==>
        content == old(content) && hasDocumentUpdate == old(hasDocumentUpdate) &&
        table == old(table) && clock == old(clock) &&
        outbox == old(outbox) && failSafeOutbox == old(failSafeOutbox)
      ensures FeatureText(p).Some? ==>
        var text := FeatureText(p).value;
        var saved := Row(if user.Some? then user.value.id else "", sessionId, old(content), text,
                         Or(p.value.userMessage, ""), Or(p.value.comment, ""), None, old(clock));
        content == text &&
        hasDocumentUpdate == (old(hasDocumentUpdate) || RaisesBadge(isMobile, text, old(content), activeTab)) &&
        (CanPersist(user) && !insertFails ==> table == old(table) + [saved] && clock == old(clock) + 1) &&
        (!(CanPersist(user) && !insertFails) ==> table == old(table) && clock == old(clock)) &&
        outbox == old(outbox) + [FeatureReceived, WaitingForMetrics] &&
        failSafeOutbox == old(failSafeOutbox) + [FeatureReceived, WaitingForMetrics]
    {
      var text := FeatureText(p);
      if text.None? {
        return;
      }
      var newFeature := text.value;
      var previousFeature := content;
      content := newFeature;
      TrackDocumentUpdate();
      SaveFeatureToDb(previousFeature, newFeature, Or(p.value.userMessage, ""), Or(p.value.comment, ""), None, insertFails);
      outbox := outbox + [FeatureReceived, WaitingForMetrics];
      failSafeOutbox := failSafeOutbox + [FeatureReceived, WaitingForMetrics];
    }

    /** The `metrics-update` handler. A payload without `overall` is ignored.
        Otherwise the score becomes `overall`, the whole payload is attached
        as the estimation of the newest row of the session, and then
        `metrics-received` is announced. */
    method HandleMetricsUpdate(p: Option<Metrics>, updateFails: bool)
      requires Valid()
      modifies this`overallScore, this`table, this`outbox
      ensures Valid()
      ensures !HasOverall(p) ==>
        overallScore == old(overallScore) && table == old(table) && outbox == old(outbox)
      ensures HasOverall(p) ==>
        overallScore == ScoreOf(p.value.overall) &&
        (CanPersist(user) && !updateFails ==>
           table == AttachEstimation(old(table), ForSession(user.value.id, sessionId), p.value)) &&
        (!(CanPersist(user) && !updateFails) ==> table == old(table)) &&
        outbox == old(outbox) + [MetricsReceived]
    {
      if !HasOverall(p) {
        return;
      }
      overallScore := ScoreOf(p.value.overall);
      SaveEstimationToDb(p.value, updateFails);
      outbox := outbox + [MetricsReceived];
    }

    /** Bootstrap from the user's newest revision. Without a user, or when the
        query fails, nothing changes. A newest row with a non-empty document
        restores that document, and its estimation when it has one; no row,
        or an empty document, clears the document and the saved estimation. */
    method LoadLastFeature(queryFails: bool)
      requires Valid()
      modifies this`content, this`savedEstimation, this`previousContent, this`hasDocumentUpdate
      ensures Valid()
      ensures user.None? || queryFails ==>
        content == old(content) && savedEstimation == old(savedEstimation) &&
        hasDocumentUpdate == old(hasDocumentUpdate)
      ensures user.Some? && !queryFails ==>
        var newest := Newest(table, ForUser(user.value.id));
        (newest.Some? && table[newest.value].featureAfter != "" ==>
           content == table[newest.value].featureAfter &&
           savedEstimation == (if table[newest.value].estimation.Some?
                               then table[newest.value].estimation else old(savedEstimation))) &&
        (!(newest.Some? && table[newest.value].featureAfter != "") ==>
           content == "" && savedEstimation.None?)
      ensures hasDocumentUpdate == (old(hasDocumentUpdate) || RaisesBadge(isMobile, content, old(content), activeTab))
    {
      if user.None? {
        return;
      }
      if queryFails {
        return;
      }
      var newest := Newest(table, ForUser(user.value.id));
      if newest.Some? && table[newest.value].featureAfter != "" {
        var row := table[newest.value];
        content := row.featureAfter;
        if row.estimation.Some? {
          savedEstimation := row.estimation;
        }
      } else {
        content := "";
        savedEstimation := None;
      }
      TrackDocumentUpdate();
    }

    /** The signed-in user changes: the ref follows, and the bootstrap
        effect runs for the new user. */
    method SetUser(u: Option<User>, queryFails: bool)
      requires Valid()
      modifies this`user, this`content, this`savedEstimation, this`previousContent, this`hasDocumentUpdate
      ensures Valid()
      ensures user == u
      ensures u.None? || queryFails ==>
        content == old(content) && savedEstimation == old(savedEstimation) &&
        hasDocumentUpdate == old(hasDocumentUpdate)
      ensures u.Some? && !queryFails ==>
        var newest := Newest(table, ForUser(u.value.id));
        (newest.Some? && table[newest.value].featureAfter != "" ==>
           content == table[newest.value].featureAfter &&
           savedEstimation == (if table[newest.value].estimation.Some?
                               then table[newest.value].estimation else old(savedEstimation))) &&
        (!(newest.Some? && table[newest.value].featureAfter != "") ==>
           content == "" && savedEstimation.None?)
      ensures hasDocumentUpdate == (old(hasDocumentUpdate) || RaisesBadge(isMobile, content, old(content), activeTab))
    {
      user := u;
      LoadLastFeature(queryFails);
    }
  }

  /** The page is mounted for a signed-in user over an empty table: the
      bootstrap finds no revision and leaves the document empty. */
  method OpenPage(userId: string, sessionId: string) returns (page: Coordinator)
    ensures fresh(page) && page.Valid()
    ensures page.sessionId == sessionId && page.user == Some(User(userId)) && !page.isMobile
    ensures page.table == [] && page.clock == 0
    ensures page.content == "" && page.savedEstimation.None? && page.overallScore.None?
    ensures page.outbox == [] && page.failSafeOutbox == []
  {
    page := new Coordinator(sessionId, Some(User(userId)), false, [], 0);
    page.LoadLastFeature(false);
  }

  /** The first half of a round on a page with no revision yet: work is
      requested and the agent delivers a document. One revision from the
      empty document to the delivered one is saved, the document is shown,
      and the first three loading events go out in order. */
  method FeatureRound(page: Coordinator, doc: string)
    requires page.Valid() && CanPersist(page.user) && doc != ""
    requires page.table == [] && page.clock == 0 && page.content == "" && page.outbox == []
    modifies page
    ensures page.Valid() && page.user == old(page.user) && page.overallScore == old(page.overallScore)
    ensures page.table == [Row(page.user.value.id, page.sessionId, "", doc, "", "", None, 0)]
    ensures page.outbox == [WaitingForFeature, FeatureReceived, WaitingForMetrics]
    ensures page.content == doc
    ensures page.progress == Progress(true, StartProgress)
  {
    page.StartWaiting();
    var update := Some(FeaturePayload(Some(doc), None, None, None));
    assert FeatureText(update) == Some(doc);
    page.HandleFeatureUpdate(update, false);
  }

  /** The second half, on a page whose session has exactly its first
      revision: the scorer's metrics become that revision's estimation, the
      score is shown, and `metrics-received` goes out. */
  method MetricsRound(page: Coordinator, m: Metrics)
    requires page.Valid() && CanPersist(page.user) && m.overall.Score?
    requires |page.table| == 1 && Matches(page.table[0], ForSession(page.user.value.id, page.sessionId))
    modifies page
    ensures page.Valid() && page.user == old(page.user) && page.content == old(page.content)
    ensures page.table == [old(page.table)[0].(estimation := Some(m))]
    ensures page.outbox == old(page.outbox) + [MetricsReceived]
    ensures page.overallScore == Some(m.overall.value)
  {
    var first := page.table[0];
    AttachOnFirstRevision(first, m);
    assert page.table == [first];
    page.HandleMetricsUpdate(Some(m), false);
  }

  /** A whole session round, for a signed-in user over an empty table: the
      page mounts and its bootstrap finds nothing, the feature half and the
      metrics half run, and a page mounted afterwards for the same user
      restores the delivered document together with its metrics. One
      revision from the empty document to the delivered one is saved and
      carries the metrics, the score is shown, and the four loading events
      go out on the page channel in order. */
  method SessionRound(userId: string, sessionId: string, doc: string, m: Metrics)
    returns (rows: seq<Row>, events: seq<LoadingEvent>, shown: string, score: Option<real>,
             reloaded: string, reloadedEstimation: Option<Metrics>)
    requires userId != "" && doc != "" && m.overall.Score?
    ensures rows == [Row(userId, sessionId, "", doc, "", "", Some(m), 0)]
    ensures events == [WaitingForFeature, FeatureReceived, WaitingForMetrics, MetricsReceived]
    ensures shown == doc
    ensures score == Some(m.overall.value)
    ensures reloaded == doc && reloadedEstimation == Some(m)
  {
    var page := OpenPage(userId, sessionId);
    FeatureRound(page, doc);
    MetricsRound(page, m);
    rows, events, shown, score := page.table, page.outbox, page.content, page.overallScore;
    SaveThenLoad([], rows[0]);
    assert [] + [rows[0]] == rows;
    var reopened := new Coordinator(sessionId, Some(User(userId)), false, rows, page.clock);
    reopened.LoadLastFeature(false);
    reloaded, reloadedEstimation := reopened.content, reopened.savedEstimation;
  }

  /** Save then bootstrap: after an accepted feature update is saved for the
      signed-in user, a page mounted afterwards for that user over the same
      table restores the delivered document, from the revision whose
      previous document is the one the page held before the update. */
  method FeatureUpdateThenReload(page: Coordinator, p: Option<FeaturePayload>)
    returns (reopened: Coordinator)
    requires page.Valid() && CanPersist(page.user) && FeatureText(p).Some?
    modifies page
    ensures fresh(reopened) && reopened.Valid()
    ensures reopened.content == FeatureText(p).value
    ensures var n := Newest(reopened.table, ForUser(old(page.user).value.id));
      n.Some? && reopened.table[n.value].featureBefore == old(page.content)
  {
    var before := page.table;
    page.HandleFeatureUpdate(p, false);
    SaveThenLoad(before, page.table[|before|]);
    reopened := new Coordinator(page.sessionId, page.user, page.isMobile, page.table, page.clock);
    reopened.LoadLastFeature(false);
  }
}
