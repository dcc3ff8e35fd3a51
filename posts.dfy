/**
  The post store of a forum: the creation workflow, the field-level
  repository, the batch reads (by ids, by topic, by user, summaries,
  favourites), the author join and search re-indexing.

  The store is a class whose fields are the records this module writes:
  `post:<pid>` records, the `global` counters `nextPid` and `postCount`, the
  search index and a log of the notifications it sends. The records of the
  topic, category and user subsystems are read-only to this module and are
  held in `peers`; the plugin hooks and the content renderer are functions in
  `env`.
 */
module Posts {
  import opened Wrappers
  import opened JsValues
  import opened RecordStore

  /** The errors the post code reports or runs into. */
  datatype Error =
    | InvalidUser                     // 'invalid-user'
    | TopicLocked                     // 'topic-locked'
    | InvalidCategoryId               // 'invalid-category-id'
    | StoreUnavailable                // a collaborator's read reported an error
    | ExtensionError(reason: string)  // a filter hook reported an error
    | RenderError(reason: string)     // the content renderer reported an error
    | TypeFault                       // a TypeError thrown by a property read on null
    | RangeFault                      // a RangeError thrown by toISOString

  /** Filter hooks: awaited transforms that may fail the operation. */
  datatype Hooks = Hooks(
    savePost: string -> Result<string, Error>,                     // filter:post.save
    getPost: Option<Object> -> Result<Option<Object>, Error>,      // filter:post.get
    getFields: Object -> Result<Object, Error>,                    // filter:post.getFields
    getTopic: seq<int> -> Result<seq<int>, Error>,                 // filter:post.getTopic
    customProfileInfo: Object -> Result<Object, Error>)            // filter:posts.custom_profile_info

  /** The content collaborators: rendering, sanitising and time formatting. */
  datatype Renderer = Renderer(
    parse: Value -> Result<string, Error>,          // postTools.parse
    parseSignature: Value -> Result<Value, Error>,  // postTools.parseSignature
    escape: Value -> string,                        // validator.sanitize(..).escape()
    stripTags: string -> string,                    // S(..).stripTags().s
    isoTime: int -> Text)                           // new Date(t).toISOString() within the time range

  /** Everything the post code consults but does not own. */
  datatype Env = Env(
    hooks: Hooks,
    render: Renderer,
    disableSignatures: Value,   // meta.config.disableSignatures
    placeholderPicture: Text)   // gravatar.url('', {}, https)

  /** The records of the topic, category and user subsystems, as this module reads them. */
  datatype Collaborators = Collaborators(
    topics: map<Value, Object>,         // topic:<tid> (title, slug, cid, locked, deleted)
    topicPosts: map<Value, seq<int>>,   // tid:<tid>:posts, in list order
    categories: map<Value, Object>,     // category:<cid> (name, icon, slug)
    users: map<Value, Object>,          // user:<uid>
    userPosts: map<Value, seq<int>>,    // the pids user.getPostIds ranges over, in the order it returns them
    favourites: map<Value, seq<int>>,   // uid:<uid>:favourites, in ascending score order
    failingTopics: set<Value>,          // topics whose reads report an error
    failingUsers: set<Value>)           // users whose reads report an error

  /** Action hooks fired and collaborators notified, in order. */
  datatype Event =
    | TopicNewPost(tid: Value, pid: int, timestamp: int)                // topics.onNewPostMade
    | CategoryNewPost(uid: Value, tid: Value, pid: int, timestamp: int) // categories.onNewPostMade
    | UserNewPost(uid: Value, tid: Value, pid: int, timestamp: int)     // user.onNewPostMade
    | PostSaved(post: Object)                                           // action:post.save
    | FieldSet(pid: int, field: string, value: Value)                   // action:post.setField
    | GotTopic(posts: seq<Option<Object>>)                              // action:post.gotTopic

  /** The outcome of the author join: the decorated post and the error passed to its callback, if any. */
  datatype Joined = Joined(post: Object, failure: Option<Error>)

  /** What the summary pass does with one pid, or what one stage of it does with the post built so far. */
  datatype Step = Skip | Keep(post: Object) | Abort(error: Error)

  /** The stages of a post summary, in the order the waterfall runs them. */
  datatype Stage = FetchPost | JoinAuthor | JoinTopic | RenderContent

  const SummaryStages: seq<Stage> := [FetchPost, JoinAuthor, JoinTopic, RenderContent]

  /** The fields the summary pass fetches for each post. */
  const SummaryFields: seq<string> := ["pid", "tid", "content", "uid", "timestamp", "deleted"]

  /** The properties the author join may write. */
  const JoinKeys: set<string> :=
    {"username", "userslug", "user_rep", "user_postcount", "user_banned", "picture",
     "signature", "additional_profile_info", "editorname", "editorslug"}

  /** The properties the topic stage of a summary writes. */
  const PlaceKeys: set<string> := {"categoryName", "categoryIcon", "categorySlug", "title", "topicSlug"}

  /** The primary record `create` writes. */
  function NewPostRecord(pid: int, uid: Value, tid: Value, content: string, timestamp: int): Object
  {
    map["pid" := Num(pid), "uid" := uid, "tid" := tid, "content" := Str(content),
        "timestamp" := Num(timestamp), "reputation" := Num(0), "editor" := Str(""),
        "edited" := Num(0), "deleted" := Num(0)]
  }

  /** The three announcements of a new post, in the order they are made. */
  function Announcements(uid: Value, tid: Value, pid: int, timestamp: int): seq<Event>
  {
    [TopicNewPost(tid, pid, timestamp), CategoryNewPost(uid, tid, pid, timestamp), UserNewPost(uid, tid, pid, timestamp)]
  }

  ghost predicate GetHookIsIdentity(h: Hooks)
  {
    forall o :: h.getPost(o) == Ok(o)
  }

  ghost predicate FieldsHookIsIdentity(h: Hooks)
  {
    forall o :: h.getFields(o) == Ok(o)
  }

  /** A content value the re-index indexes: `content && content.length`. */
  predicate HasContent(v: Value)
  {
    match v
    case Str(s) => |s| > 0
    case StrList(items) => |items| > 0
    case _ => false
  }

  /** The formatted time, or None where toISOString throws. */
  function IsoTime(r: Renderer, t: Option<int>): (s: Option<Text>)
    ensures s.Some? <==> IsTimeValue(t)
  {
    if IsTimeValue(t) then Some(r.isoTime(t.value)) else None
  }

  function Firsts(pairs: seq<(int, Object)>): (r: seq<int>)
    ensures |r| == |pairs| && forall k :: 0 <= k < |pairs| ==> r[k] == pairs[k].0
  {
    seq(|pairs|, k requires 0 <= k < |pairs| => pairs[k].0)
  }

  function Seconds(pairs: seq<(int, Object)>): (r: seq<Object>)
    ensures |r| == |pairs| && forall k :: 0 <= k < |pairs| ==> r[k] == pairs[k].1
  {
    seq(|pairs|, k requires 0 <= k < |pairs| => pairs[k].1)
  }

  /** `acc` followed by the outcome of the rest of a sequential pass. */
  function Then(acc: seq<(int, Object)>, rest: Result<seq<(int, Object)>, Error>): Result<seq<(int, Object)>, Error>
  {
    match rest
    case Ok(more) => Ok(acc + more)
    case Err(e) => Err(e)
  }

  lemma ThenNothing(rest: Result<seq<(int, Object)>, Error>)
    ensures Then([], rest) == rest
  {
    if rest.Ok? {
      assert [] + rest.value == rest.value;
    }
  }

  lemma ThenAssoc(acc: seq<(int, Object)>, entry: (int, Object), rest: Result<seq<(int, Object)>, Error>)
    ensures Then(acc, Then([entry], rest)) == Then(acc + [entry], rest)
  {
    if rest.Ok? {
      assert acc + ([entry] + rest.value) == (acc + [entry]) + rest.value;
    }
  }

  /** `after` agrees with `before` on every property outside `keys`. */
  ghost predicate Preserves(before: Object, after: Object, keys: set<string>)
  {
    && (forall k :: k in before && k !in keys ==> k in after && after[k] == before[k])
    && (forall k :: k in after && k !in keys ==> k in before)
  }

  lemma PreservesTrans(a: Object, b: Object, c: Object, keys: set<string>)
    requires Preserves(a, b, keys)
    requires Preserves(b, c, keys)
    ensures Preserves(a, c, keys)
  {
  }

  /** `a` is `b` with some elements left out, the rest kept in order. */
  ghost predicate IsSubsequence(a: seq<int>, b: seq<int>)
    decreases |b|
  {
    if a == [] then true
    else if b == [] then false
    else (a[0] == b[0] && IsSubsequence(a[1..], b[1..])) || IsSubsequence(a, b[1..])
  }

  /** A subsequence is no longer than the sequence it is taken from. */
  lemma {:induction false} SubsequenceLength(a: seq<int>, b: seq<int>)
    requires IsSubsequence(a, b)
    ensures |a| <= |b|
    decreases |b|
  {
    if a != [] {
      if a[0] == b[0] && IsSubsequence(a[1..], b[1..]) {
        SubsequenceLength(a[1..], b[1..]);
      } else {
        SubsequenceLength(a, b[1..]);
      }
    }
  }

  /**
    The sequential pass of `async.eachSeries` over per-pid outcomes: kept
    posts are collected in order, skipped pids are passed over, and the first
    abort ends the pass with its error.
   */
  function Collect(pids: seq<int>, steps: seq<Step>): Result<seq<(int, Object)>, Error>
    requires |steps| == |pids|
    decreases |pids|
  {
    if pids == [] then Ok([])
    else match steps[0]
      case Abort(e) => Err(e)
      case Skip => Collect(pids[1..], steps[1..])
      case Keep(o) => Then([(pids[0], o)], Collect(pids[1..], steps[1..]))
  }

  /** The collected pids are a subsequence of the input. */
  lemma {:induction false} CollectSubsequence(pids: seq<int>, steps: seq<Step>)
    requires |steps| == |pids|
    ensures Collect(pids, steps).Ok? ==> IsSubsequence(Firsts(Collect(pids, steps).value), pids)
    decreases |pids|
  {
    if pids != [] && Collect(pids, steps).Ok? {
      CollectSubsequence(pids[1..], steps[1..]);
      var pairs := Collect(pids, steps).value;
      var rest := Collect(pids[1..], steps[1..]).value;
      if steps[0].Keep? {
        assert pairs == [(pids[0], steps[0].post)] + rest;
        assert Firsts(pairs)[0] == pids[0] && Firsts(pairs)[1..] == Firsts(rest);
      } else {
        assert pairs == rest;
      }
    }
  }

  /** Each collected pair is a kept step, and the collected pids are a subsequence of the input. */
  lemma {:induction false} CollectKeeps(pids: seq<int>, steps: seq<Step>)
    requires |steps| == |pids|
    ensures Collect(pids, steps).Ok? ==>
              var pairs := Collect(pids, steps).value;
              && IsSubsequence(Firsts(pairs), pids)
              && forall k :: 0 <= k < |pairs| ==>
                   exists i :: 0 <= i < |pids| && pids[i] == pairs[k].0 && steps[i] == Keep(pairs[k].1)
    decreases |pids|
  {
    CollectSubsequence(pids, steps);
    if pids != [] && Collect(pids, steps).Ok? {
      CollectKeeps(pids[1..], steps[1..]);
      var pairs := Collect(pids, steps).value;
      var rest := Collect(pids[1..], steps[1..]).value;
      if steps[0].Keep? {
        assert pairs == [(pids[0], steps[0].post)] + rest;
        forall k | 1 <= k < |pairs|
          ensures exists i :: 0 <= i < |pids| && pids[i] == pairs[k].0 && steps[i] == Keep(pairs[k].1)
        {
          assert pairs[k] == rest[k - 1];
          var i :| 0 <= i < |pids[1..]| && pids[1..][i] == rest[k - 1].0 && steps[1..][i] == Keep(rest[k - 1].1);
          assert pids[i + 1] == pairs[k].0 && steps[i + 1] == Keep(pairs[k].1);
        }
        assert pids[0] == pairs[0].0 && steps[0] == Keep(pairs[0].1);
      } else {
        assert pairs == rest;
        forall k | 0 <= k < |pairs|
          ensures exists i :: 0 <= i < |pids| && pids[i] == pairs[k].0 && steps[i] == Keep(pairs[k].1)
        {
          var i :| 0 <= i < |pids[1..]| && pids[1..][i] == rest[k].0 && steps[1..][i] == Keep(rest[k].1);
          assert pids[i + 1] == pairs[k].0 && steps[i + 1] == Keep(pairs[k].1);
        }
      }
    }
  }

  /** Every kept step's pid is collected. */
  lemma {:induction false} CollectMissesNothing(pids: seq<int>, steps: seq<Step>)
    requires |steps| == |pids|
    ensures Collect(pids, steps).Ok? ==>
              forall i :: 0 <= i < |pids| && steps[i].Keep? ==> pids[i] in Firsts(Collect(pids, steps).value)
    decreases |pids|
  {
    if pids != [] && Collect(pids, steps).Ok? {
      CollectMissesNothing(pids[1..], steps[1..]);
      var pairs := Collect(pids, steps).value;
      var rest := Collect(pids[1..], steps[1..]).value;
      if steps[0].Keep? {
        assert pairs == [(pids[0], steps[0].post)] + rest;
        assert Firsts(pairs) == [pids[0]] + Firsts(rest);
      } else {
        assert pairs == rest;
      }
      forall i | 1 <= i < |pids| && steps[i].Keep?
        ensures pids[i] in Firsts(pairs)
      {
        assert pids[1..][i - 1] == pids[i] && steps[1..][i - 1] == steps[i];
      }
    }
  }

  /** The pass fails exactly when some step aborts, and then with the error of the first abort. */
  lemma {:induction false} CollectAborts(pids: seq<int>, steps: seq<Step>)
    requires |steps| == |pids|
    ensures Collect(pids, steps).Err? <==> exists i :: 0 <= i < |steps| && steps[i].Abort?
    ensures Collect(pids, steps).Err? ==>
              exists i :: 0 <= i < |steps| && steps[i] == Abort(Collect(pids, steps).error)
                          && forall j :: 0 <= j < i ==> !steps[j].Abort?
    decreases |pids|
  {
    if pids != [] {
      CollectAborts(pids[1..], steps[1..]);
      if !steps[0].Abort? {
        if exists i :: 0 <= i < |steps| && steps[i].Abort? {
          var i :| 0 <= i < |steps| && steps[i].Abort?;
          assert steps[1..][i - 1].Abort?;
        }
        if Collect(pids, steps).Err? {
          var e := Collect(pids, steps).error;
          assert Collect(pids[1..], steps[1..]) == Err(e);
          var i :| 0 <= i < |steps[1..]| && steps[1..][i] == Abort(e)
                   && forall j :: 0 <= j < i ==> !steps[1..][j].Abort?;
          forall j | 0 <= j < i + 1
            ensures !steps[j].Abort?
          {
            if j > 0 { assert steps[j] == steps[1..][j - 1]; }
          }
          assert steps[i + 1] == Abort(e);
        }
        forall i | 0 <= i < |steps[1..]|
          ensures steps[1..][i] == steps[i + 1]
        {
        }
      }
    }
  }

  class PostStore {
    const env: Env
    const peers: Collaborators

    /** The `post:<pid>` records. */
    var posts: map<int, Object>
    /** `global.nextPid`: the last pid handed out. */
    var nextPid: int
    /** `global.postCount`. */
    var postCount: int
    /** The search index: what has been indexed under each pid since it was last removed. */
    var searchIndex: map<int, seq<Value>>
    /** Notifications and action hooks, oldest first. */
    var events: seq<Event>
    /** The pids whose records `create` wrote. */
    ghost var created: set<int>

    ghost predicate Valid()
      reads this`nextPid, this`created, this`posts, this`postCount
    {
      && nextPid >= 0
      && (forall p :: p in created ==> 0 < p <= nextPid)
      && created <= posts.Keys
      && postCount == |created|
    }

    constructor (env: Env, peers: Collaborators)
      ensures Valid()
      ensures this.env == env && this.peers == peers
      ensures posts == map[] && nextPid == 0 && postCount == 0
      ensures searchIndex == map[] && events == [] && created == {}
    {
      this.env := env;
      this.peers := peers;
      posts := map[];
      nextPid := 0;
      postCount := 0;
      searchIndex := map[];
      events := [];
      created := {};
    }

    // -------------------------------------------------------------------------
    // Reads of the collaborators' records
    // -------------------------------------------------------------------------

    function TopicRecord(tid: Value): Object
    {
      if tid in peers.topics then peers.topics[tid] else map[]
    }

    function UserRecord(uid: Value): Object
    {
      if uid in peers.users then peers.users[uid] else map[]
    }

    function CategoryRecord(cid: Value): Object
    {
      if cid in peers.categories then peers.categories[cid] else map[]
    }

    /** `topics.getTopicField(tid, field)`. */
    function TopicField(tid: Value, field: string): Result<Value, Error>
    {
      if tid in peers.failingTopics then Err(StoreUnavailable) else Ok(Get(TopicRecord(tid), field))
    }

    /** `topics.isLocked(tid)`: the topic's `locked` field parses to 1. */
    function IsLocked(tid: Value): (r: Result<bool, Error>)
      ensures r.Err? <==> tid in peers.failingTopics
    {
      match TopicField(tid, "locked")
      case Err(e) => Err(e)
      case Ok(locked) => Ok(ParseInt(locked) == Some(1))
    }

    /** Whether `topics.getTopicFields` reports the topic as soft-deleted. */
    predicate TopicDeleted(tid: Value)
    {
      tid !in peers.failingTopics && ParseInt(Get(TopicRecord(tid), "deleted")) == Some(1)
    }

    // -------------------------------------------------------------------------
    // Repository primitives
    // -------------------------------------------------------------------------

    function Record(pid: int): Object
      reads this`posts
    {
      if pid in posts then posts[pid] else map[]
    }

    function IndexEntries(pid: int): seq<Value>
      reads this`searchIndex
    {
      if pid in searchIndex then searchIndex[pid] else []
    }

    /** The object `getPostFields` hands to `filter:post.getFields`: the requested fields the record has (none for a missing record), then `pid` and `fields`. */
    function FieldsPayload(pid: int, fields: seq<string>): Object
      reads this`posts
    {
      var data: Object := map k | k in Record(pid) && k in fields :: Record(pid)[k];
      data["pid" := Num(pid)]["fields" := StrList(fields)]
    }

    /** The payload holds `pid`, `fields` and exactly those requested fields the record has, with their stored values. */
    lemma FieldsPayloadShape(pid: int, fields: seq<string>)
      ensures var o := FieldsPayload(pid, fields);
              && Get(o, "pid") == Num(pid)
              && Get(o, "fields") == StrList(fields)
              && (forall k :: k != "pid" && k != "fields" ==> (k in o <==> pid in posts && k in posts[pid] && k in fields))
              && (forall k :: k in o && k != "pid" && k != "fields" ==> o[k] == posts[pid][k])
    {
    }

    /** `getPostFields(pid, fields)` */
    function GetPostFields(pid: int, fields: seq<string>): Result<Object, Error>
      reads this`posts
    {
      env.hooks.getFields(FieldsPayload(pid, fields))
    }

    /** With an identity `filter:post.getFields` hook, `getPostFields` delivers the payload itself; otherwise whatever the hook makes of it. */
    lemma GetPostFieldsIdentity(pid: int, fields: seq<string>)
      requires FieldsHookIsIdentity(env.hooks)
      ensures GetPostFields(pid, fields) == Ok(FieldsPayload(pid, fields))
      ensures var o := GetPostFields(pid, fields).value;
              && Get(o, "pid") == Num(pid) && Get(o, "fields") == StrList(fields)
              && forall k :: k in o && k != "pid" && k != "fields" ==> k in fields && pid in posts && o[k] == posts[pid][k]
    {
      FieldsPayloadShape(pid, fields);
    }

    /** `getPostField(pid, field)`: `pid` and `fields` read back the payload's own entries. */
    function GetPostField(pid: int, field: string): (r: Result<Value, Error>)
      reads this`posts
      ensures GetPostFields(pid, [field]).Err? ==> r == Err(GetPostFields(pid, [field]).error)
      ensures FieldsHookIsIdentity(env.hooks) ==>
                r == Ok(if field == "pid" then Num(pid)
                        else if field == "fields" then StrList([field])
                        else Get(Record(pid), field))
    {
      FieldsPayloadShape(pid, [field]);
      match GetPostFields(pid, [field])
      case Err(e) => Err(e)
      case Ok(data) => Ok(Get(data, field))
    }

    /** `getPostData(pid)`: the whole record, or null, through `filter:post.get`. */
    function GetPostData(pid: int): (r: Result<Option<Object>, Error>)
      reads this`posts
      ensures GetHookIsIdentity(env.hooks) ==> r == Ok(if pid in posts then Some(posts[pid]) else None)
    {
      env.hooks.getPost(if pid in posts then Some(posts[pid]) else None)
    }

    /** `getCidByPid(pid)`: the category of the post's topic; a falsy cid is an error. */
    function GetCidByPid(pid: int): (r: Result<Value, Error>)
      reads this`posts
      ensures r.Ok? ==> Truthy(r.value)
      ensures GetPostField(pid, "tid").Err? ==> r == Err(GetPostField(pid, "tid").error)
      ensures GetPostField(pid, "tid").Ok? ==>
                var cid := TopicField(GetPostField(pid, "tid").value, "cid");
                && (r.Ok? <==> cid.Ok? && Truthy(cid.value))
                && (r.Ok? ==> r == cid)
                && (cid.Ok? && !Truthy(cid.value) ==> r == Err(InvalidCategoryId))
    {
      match GetPostField(pid, "tid")
      case Err(e) => Err(e)
      case Ok(tid) =>
        match TopicField(tid, "cid")
        case Err(e) => Err(e)
        case Ok(cid) => if Truthy(cid) then Ok(cid) else Err(InvalidCategoryId)
    }

    /** `setPostField(pid, field, value)`: write the field (creating the record if need be), then fire `action:post.setField`. */
    method SetPostField(pid: int, field: string, value: Value)
      requires Valid()
      modifies this`posts, this`events
      ensures Valid()
      ensures posts == old(posts)[pid := old(Record(pid))[field := value]]
      ensures events == old(events) + [FieldSet(pid, field, value)]
      ensures FieldsHookIsIdentity(env.hooks) && field != "pid" && field != "fields" ==>
                GetPostField(pid, field) == Ok(value)
    {
      posts := posts[pid := Record(pid)[field := value]];
      events := events + [FieldSet(pid, field, value)];
    }

    /** `setPostFields(pid, data)`: merge `data` into the record (creating it if need be). */
    method SetPostFields(pid: int, data: Object)
      requires Valid()
      modifies this`posts
      ensures Valid()
      ensures posts == old(posts)[pid := old(Record(pid)) + data]
      ensures FieldsHookIsIdentity(env.hooks) ==>
                forall f :: f in data && f != "pid" && f != "fields" ==> GetPostField(pid, f) == Ok(data[f])
    {
      posts := posts[pid := Record(pid) + data];
    }

    // -------------------------------------------------------------------------
    // Creation workflow
    // -------------------------------------------------------------------------

    /** The validation `create` performs before touching the store. */
    predicate Admits(uid: Value, tid: Value)
    {
      uid != Null && IsLocked(tid) == Ok(false)
    }

    /** The view `create` returns for the record it wrote: `filter:post.get`, then the rendered content. */
    function CreatedView(rec: Object): (r: Result<Object, Error>)
      ensures r.Ok? ==> exists c :: Get(r.value, "content") == Str(c)
      ensures GetHookIsIdentity(env.hooks) ==>
                var parsed := env.render.parse(Get(rec, "content"));
                && (parsed.Err? ==> r == Err(parsed.error))
                && (parsed.Ok? ==> r == Ok(rec["content" := Str(parsed.value)]))
    {
      assert GetHookIsIdentity(env.hooks) ==> env.hooks.getPost(Some(rec)) == Ok(Some(rec));
      match env.hooks.getPost(Some(rec))
      case Err(e) => Err(e)
      case Ok(None) => Err(TypeFault)
      case Ok(Some(o)) =>
        match env.render.parse(Get(o, "content"))
        case Err(e) => Err(e)
        case Ok(c) => Ok(o["content" := Str(c)])
    }

    /** `create(uid, tid, content)` at time `timestamp`. */
    method Create(uid: Value, tid: Value, content: string, timestamp: int) returns (r: Result<Object, Error>)
      requires Valid()
      modifies this
      ensures Valid()
      // validation: rejected before any write
      ensures uid == Null ==> r == Err(InvalidUser) && unchanged(this)
      ensures uid != Null && IsLocked(tid).Err? ==> r == Err(IsLocked(tid).error) && unchanged(this)
      ensures uid != Null && IsLocked(tid) == Ok(true) ==> r == Err(TopicLocked) && unchanged(this)
      // allocation: a pid greater than every pid handed out before
      ensures Admits(uid, tid) ==> nextPid == old(nextPid) + 1 && forall p :: p in old(created) ==> p < nextPid
      // a failing save filter has consumed the pid but written nothing
      ensures Admits(uid, tid) && env.hooks.savePost(content).Err? ==>
                && r == Err(env.hooks.savePost(content).error)
                && posts == old(posts) && postCount == old(postCount) && created == old(created)
                && searchIndex == old(searchIndex) && events == old(events)
      // the record is written, counted and announced once, before the view is built
      ensures Admits(uid, tid) && env.hooks.savePost(content).Ok? ==>
                var pid := old(nextPid) + 1;
                var rec := NewPostRecord(pid, uid, tid, env.hooks.savePost(content).value, timestamp);
                && posts == old(posts)[pid := old(Record(pid)) + rec]
                && postCount == old(postCount) + 1
                && created == old(created) + {pid}
                && r == CreatedView(rec)
                && (r.Ok? ==> && searchIndex == old(searchIndex)[pid := old(IndexEntries(pid)) + [Get(r.value, "content")]]
                              && events == old(events) + Announcements(uid, tid, pid, timestamp) + [PostSaved(r.value)])
                && (r.Err? ==> && searchIndex == old(searchIndex)
                               && events == old(events) + Announcements(uid, tid, pid, timestamp))
      ensures r.Ok? ==> Admits(uid, tid) && env.hooks.savePost(content).Ok?
    {
      if uid == Null {
        return Err(InvalidUser);
      }
      var locked := IsLocked(tid);
      if locked.Err? {
        return Err(locked.error);
      }
      if locked.value {
        return Err(TopicLocked);
      }
      nextPid := nextPid + 1;
      var saved := env.hooks.savePost(content);
      if saved.Err? {
        return Err(saved.error);
      }
      r := Publish(nextPid, uid, tid, saved.value, timestamp);
    }

    /** The writes of `create` once the pid is allocated and the content filtered: record, counter, announcements, then the view and its indexing. */
    method Publish(pid: int, uid: Value, tid: Value, content: string, timestamp: int) returns (r: Result<Object, Error>)
      requires Valid() && pid == nextPid && pid > 0 && pid !in created
      modifies this`posts, this`created, this`postCount, this`events, this`searchIndex
      ensures Valid()
      ensures var rec := NewPostRecord(pid, uid, tid, content, timestamp);
              && posts == old(posts)[pid := old(Record(pid)) + rec]
              && postCount == old(postCount) + 1
              && created == old(created) + {pid}
              && r == CreatedView(rec)
              && (r.Ok? ==> && searchIndex == old(searchIndex)[pid := old(IndexEntries(pid)) + [Get(r.value, "content")]]
                            && events == old(events) + Announcements(uid, tid, pid, timestamp) + [PostSaved(r.value)])
              && (r.Err? ==> && searchIndex == old(searchIndex)
                             && events == old(events) + Announcements(uid, tid, pid, timestamp))
    {
      var postData := NewPostRecord(pid, uid, tid, content, timestamp);
      WriteRecord(pid, postData);
      events := events + Announcements(uid, tid, pid, timestamp);
      r := CreatedView(postData);
      if r.Ok? {
        events := events + [PostSaved(r.value)];
        searchIndex := searchIndex[pid := IndexEntries(pid) + [Get(r.value, "content")]];
      }
    }

    /** `setObject('post:' + pid, rec)` and `incrObjectField('global', 'postCount')` for a fresh pid. */
    method WriteRecord(pid: int, rec: Object)
      requires Valid() && 0 < pid <= nextPid && pid !in created
      modifies this`posts, this`created, this`postCount
      ensures Valid()
      ensures posts == old(posts)[pid := old(Record(pid)) + rec]
      ensures postCount == old(postCount) + 1 && created == old(created) + {pid}
    {
      posts := posts[pid := Record(pid) + rec];
      assert |created + {pid}| == |created| + 1;
      created := created + {pid};
      postCount := postCount + 1;
    }

    // -------------------------------------------------------------------------
    // Batch reads
    // -------------------------------------------------------------------------

    /** The entry `getPostsByPids` produces for one pid: null for a missing record, else the record with times and rendered content. */
    function PostView(pid: int): (v: Option<Object>)
      reads this`posts
      ensures v.None? <==> pid !in posts
      ensures v.Some? ==> forall k :: k in posts[pid] && k != "content" && k != "relativeTime" && k != "relativeEditTime" ==>
                            k in v.value && v.value[k] == posts[pid][k]
      ensures v.Some? ==> "content" in v.value && v.value["content"] ==
                            (match env.render.parse(Get(posts[pid], "content")) case Ok(c) => Str(c) case Err(_) => Undefined)
      ensures v.Some? && "relativeEditTime" !in posts[pid] ==>
                (Get(v.value, "relativeEditTime") == Str("") <==>
                   IsTimeValue(ParseInt(Get(posts[pid], "timestamp"))) && ParseInt(Get(posts[pid], "edited")) == Some(0))
      ensures v.Some? ==> forall k :: k != "content" ==> Get(v.value, k) == Get(WithTimes(posts[pid]), k)
    {
      if pid !in posts then None
      else
        var d := posts[pid];
        var timed := WithTimes(d);
        var content := match env.render.parse(Get(d, "content")) case Ok(c) => Str(c) case Err(_) => Undefined;
        Some(timed["content" := content])
    }

    /** The `try` block of getPostsByPids: `relativeTime`, then `relativeEditTime`; a throw leaves the rest unset. */
    function WithTimes(d: Object): (o: Object)
      ensures forall k :: k in d && k != "relativeTime" && k != "relativeEditTime" ==> k in o && o[k] == d[k]
      ensures forall k :: k in o && k != "relativeTime" && k != "relativeEditTime" ==> k in d
      ensures "relativeEditTime" !in d ==>
                (Get(o, "relativeEditTime") == Str("") <==>
                   IsTimeValue(ParseInt(Get(d, "timestamp"))) && ParseInt(Get(d, "edited")) == Some(0))
      // the post time is stamped when it is in range; otherwise the throw leaves the post as it was
      ensures var t := ParseInt(Get(d, "timestamp"));
              && (!IsTimeValue(t) ==> o == d)
              && (IsTimeValue(t) ==> Get(o, "relativeTime") == Str(env.render.isoTime(t.value)))
      // the edit time: '' for an unedited post, its ISO time when in range; otherwise the throw leaves it unset
      ensures var t, e := ParseInt(Get(d, "timestamp")), ParseInt(Get(d, "edited"));
              && (IsTimeValue(t) && e == Some(0) ==> Get(o, "relativeEditTime") == Str(""))
              && (IsTimeValue(t) && e != Some(0) && IsTimeValue(e) ==>
                    Get(o, "relativeEditTime") == Str(env.render.isoTime(e.value)))
              && (IsTimeValue(t) && e != Some(0) && !IsTimeValue(e) ==>
                    o == d["relativeTime" := Str(env.render.isoTime(t.value))])
    {
      match IsoTime(env.render, ParseInt(Get(d, "timestamp")))
      case None => d
      case Some(t) =>
        var withTime := d["relativeTime" := Str(t)];
        var edited := ParseInt(Get(d, "edited"));
        if edited == Some(0) then withTime["relativeEditTime" := Str("")]
        else match IsoTime(env.render, edited)
          case None => withTime
          case Some(e) => withTime["relativeEditTime" := Str(e)]
    }

    /** `getPostsByPids(pids)`: one entry per pid, in order. */
    method GetPostsByPids(pids: seq<int>) returns (r: seq<Option<Object>>)
      ensures |r| == |pids|
      ensures forall i :: 0 <= i < |pids| ==> r[i] == PostView(pids[i])
      ensures forall i :: 0 <= i < |pids| ==> (r[i].None? <==> pids[i] !in posts)
    {
      r := [];
      for x := 0 to |pids|
        invariant |r| == x
        invariant forall i :: 0 <= i < x ==> r[i] == PostView(pids[i])
      {
        r := r + [PostView(pids[x])];
      }
    }

    /** The pids `getPostsByTid` reads: `getListRange('tid:' + tid + ':posts', start, stop)`. */
    function TopicPostIds(tid: Value, start: int, stop: int): seq<int>
    {
      ListRange(if tid in peers.topicPosts then peers.topicPosts[tid] else [], start, stop)
    }

    /** The topic's pids are read as a window of its list: `0, -1` is the whole list, and each pid read is the list's at the shifted position. */
    lemma TopicPostIdsRange(tid: Value, start: int, stop: int)
      ensures var list := if tid in peers.topicPosts then peers.topicPosts[tid] else [];
              var pids := TopicPostIds(tid, start, stop);
              && TopicPostIds(tid, 0, -1) == list
              && |pids| <= |list|
              && forall i :: 0 <= i < |pids| ==> pids[i] == list[RangeStart(|list|, start) + i]
    {
      WholeRange(if tid in peers.topicPosts then peers.topicPosts[tid] else []);
    }

    /** `getPostsByTid(tid, start, stop)` */
    method GetPostsByTid(tid: Value, start: int, stop: int) returns (r: Result<seq<Option<Object>>, Error>)
      modifies this`events
      ensures var pids := TopicPostIds(tid, start, stop);
              && (pids == [] ==> r == Ok([]) && events == old(events))
              && (pids != [] && env.hooks.getTopic(pids).Err? ==>
                    r == Err(env.hooks.getTopic(pids).error) && events == old(events))
              && (pids != [] && env.hooks.getTopic(pids) == Ok([]) ==> r == Ok([]) && events == old(events))
              && (pids != [] && env.hooks.getTopic(pids).Ok? && env.hooks.getTopic(pids).value != [] ==>
                    && r.Ok? && |r.value| == |pids|
                    && (forall i :: 0 <= i < |pids| ==> r.value[i] == PostView(pids[i]))
                    && events == old(events) + [GotTopic(r.value)])
    {
      var pids := TopicPostIds(tid, start, stop);
      if |pids| == 0 {
        return Ok([]);
      }
      var filtered := env.hooks.getTopic(pids);
      if filtered.Err? {
        return Err(filtered.error);
      }
      if |filtered.value| == 0 {
        return Ok([]);
      }
      var found := GetPostsByPids(pids);
      events := events + [GotTopic(found)];
      r := Ok(found);
    }

    /** The pids `user.getPostIds(uid, start, stop)` returns, or its error. */
    function UserPostIds(uid: Value, start: int, stop: int): Result<seq<int>, Error>
    {
      if uid in peers.failingUsers then Err(StoreUnavailable)
      else Ok(ListRange(if uid in peers.userPosts then peers.userPosts[uid] else [], start, stop))
    }

    /** The user's pids are read as a window of the user's list, unless the read fails; `0, -1` is the whole list. */
    lemma UserPostIdsRange(uid: Value, start: int, stop: int)
      ensures UserPostIds(uid, start, stop).Err? <==> uid in peers.failingUsers
      ensures uid !in peers.failingUsers ==>
                var list := if uid in peers.userPosts then peers.userPosts[uid] else [];
                var pids := UserPostIds(uid, start, stop).value;
                && UserPostIds(uid, 0, -1) == Ok(list)
                && |pids| <= |list|
                && forall i :: 0 <= i < |pids| ==> pids[i] == list[RangeStart(|list|, start) + i]
    {
      WholeRange(if uid in peers.userPosts then peers.userPosts[uid] else []);
    }

    /** `getPostsByUid(uid, start, stop)` */
    method GetPostsByUid(uid: Value, start: int, stop: int) returns (r: Result<seq<Option<Object>>, Error>)
      modifies this`events
      ensures UserPostIds(uid, start, stop).Err? ==> r == Err(StoreUnavailable) && events == old(events)
      ensures UserPostIds(uid, start, stop).Ok? ==>
              var pids := UserPostIds(uid, start, stop).value;
              && (pids == [] ==> r == Ok([]) && events == old(events))
              && (pids != [] && env.hooks.getTopic(pids).Err? ==>
                    r == Err(env.hooks.getTopic(pids).error) && events == old(events))
              && (pids != [] && env.hooks.getTopic(pids) == Ok([]) ==> r == Ok([]) && events == old(events))
              && (pids != [] && env.hooks.getTopic(pids).Ok? && env.hooks.getTopic(pids).value != [] ==>
                    && r.Ok? && |r.value| == |pids|
                    && (forall i :: 0 <= i < |pids| ==> r.value[i] == PostView(pids[i]))
                    && events == old(events) + [GotTopic(r.value)])
    {
      var ids := UserPostIds(uid, start, stop);
      if ids.Err? {
        return Err(ids.error);
      }
      var pids := ids.value;
      if |pids| == 0 {
        return Ok([]);
      }
      var filtered := env.hooks.getTopic(pids);
      if filtered.Err? {
        return Err(filtered.error);
      }
      if |filtered.value| == 0 {
        return Ok([]);
      }
      var found := GetPostsByPids(pids);
      events := events + [GotTopic(found)];
      r := Ok(found);
    }

    // -------------------------------------------------------------------------
    // Author join
    // -------------------------------------------------------------------------

    /** Signatures are shown unless `disableSignatures` is set to something other than 0. */
    predicate SignaturesEnabled()
    {
      env.disableSignatures == Undefined || ParseInt(env.disableSignatures) == Some(0)
    }

    /** The author's fields could be read and the signature rendered. */
    predicate AuthorReadable(post: Object)
    {
      && Get(post, "uid") !in peers.failingUsers
      && env.render.parseSignature(Get(UserRecord(Get(post, "uid")), "signature")).Ok?
    }

    /** The author's display fields, with their defaults, and the signature where the site shows signatures. */
    function AuthorFields(post: Object, user: Object, signature: Value): (o: Object)
      ensures Get(o, "username") == Or(Get(user, "username"), Str("anonymous"))
      ensures Get(o, "userslug") == Or(Get(user, "userslug"), Str(""))
      ensures Get(o, "user_rep") == Or(Get(user, "reputation"), Num(0))
      ensures Get(o, "user_postcount") == Or(Get(user, "postcount"), Num(0))
      ensures Get(o, "user_banned") == Bool(ParseInt(Get(user, "banned")) == Some(1))
      ensures Get(o, "picture") == Or(Get(user, "picture"), Str(env.placeholderPicture))
      ensures Get(o, "signature") == if SignaturesEnabled() then signature else Get(post, "signature")
      ensures Get(o, "editorname") == Get(post, "editorname") && Get(o, "editorslug") == Get(post, "editorslug")
    {
      var author := post["username" := Or(Get(user, "username"), Str("anonymous"))]
                        ["userslug" := Or(Get(user, "userslug"), Str(""))]
                        ["user_rep" := Or(Get(user, "reputation"), Num(0))]
                        ["user_postcount" := Or(Get(user, "postcount"), Num(0))]
                        ["user_banned" := Bool(ParseInt(Get(user, "banned")) == Some(1))]
                        ["picture" := Or(Get(user, "picture"), Str(env.placeholderPicture))];
      if SignaturesEnabled() then author["signature" := signature] else author
    }

    /** The editor's name and slug, for a post whose editor is not the empty string. */
    function EditorFields(post: Object, editor: Value): (j: Joined)
      ensures editor == Str("") ==> j == Joined(post, None)
      ensures editor != Str("") && editor in peers.failingUsers ==> j == Joined(post, Some(StoreUnavailable))
      ensures editor != Str("") && editor !in peers.failingUsers ==>
                && j.failure == None
                && Get(j.post, "editorname") == Get(UserRecord(editor), "username")
                && Get(j.post, "editorslug") == Get(UserRecord(editor), "userslug")
    {
      if editor == Str("") then Joined(post, None)
      else if editor in peers.failingUsers then Joined(post, Some(StoreUnavailable))
      else
        var editorData := UserRecord(editor);
        Joined(post["editorname" := Get(editorData, "username")]["editorslug" := Get(editorData, "userslug")], None)
    }

    /** The first callback of the join: read the author, render the signature, write the display fields. */
    function AuthorStage(post: Object): (j: Joined)
      ensures !AuthorReadable(post) ==> j.post == post && j.failure.Some?
      ensures Get(post, "uid") in peers.failingUsers ==> j == Joined(post, Some(StoreUnavailable))
      ensures AuthorReadable(post) ==>
                j == Joined(AuthorFields(post, UserRecord(Get(post, "uid")),
                                        env.render.parseSignature(Get(UserRecord(Get(post, "uid")), "signature")).value), None)
    {
      var uid := Get(post, "uid");
      if uid in peers.failingUsers then Joined(post, Some(StoreUnavailable))
      else
        var user := UserRecord(uid);
        match env.render.parseSignature(Get(user, "signature"))
        case Err(e) => Joined(post, Some(e))
        case Ok(signature) => Joined(AuthorFields(post, user, signature), None)
    }

    /** The second callback: `filter:posts.custom_profile_info` for the post's author and pid. */
    function ProfileStage(post: Object, uid: Value, pid: Value): (j: Joined)
      ensures j.failure.None? ==> j.post == post["additional_profile_info" := Get(j.post, "additional_profile_info")]
      ensures j.failure.Some? ==> j.post == post
      ensures var out := env.hooks.customProfileInfo(map["profile" := Str(""), "uid" := uid, "pid" := pid]);
              && j.failure == (if out.Err? then Some(out.error) else None)
              && (out.Ok? ==> Get(j.post, "additional_profile_info") == Get(out.value, "profile"))
    {
      var request: Object := map["profile" := Str(""), "uid" := uid, "pid" := pid];
      match env.hooks.customProfileInfo(request)
      case Err(e) => Joined(post, Some(e))
      case Ok(profile) => Joined(post["additional_profile_info" := Get(profile, "profile")], None)
    }

    /** `addUserInfoToPost(post)`: the post with the author's display fields and, when it has an editor, the editor's; each callback writes into the post, and an error ends the join where it happens. */
    function AddUserInfo(post: Object): Joined
    {
      var author := AuthorStage(post);
      if author.failure.Some? then author
      else
        var profiled := ProfileStage(author.post, Get(post, "uid"), Get(post, "pid"));
        if profiled.failure.Some? then profiled
        else EditorFields(profiled.post, Get(post, "editor"))
    }

    /** The join fails with the error of the first callback that fails: the user read, the signature render, the profile hook, then the editor read. */
    lemma AddUserInfoOutcome(post: Object)
      ensures var uid := Get(post, "uid");
              var signature := env.render.parseSignature(Get(UserRecord(uid), "signature"));
              var profile := env.hooks.customProfileInfo(map["profile" := Str(""), "uid" := uid, "pid" := Get(post, "pid")]);
              var editor := Get(post, "editor");
              AddUserInfo(post).failure ==
                if uid in peers.failingUsers then Some(StoreUnavailable)
                else if signature.Err? then Some(signature.error)
                else if profile.Err? then Some(profile.error)
                else if editor != Str("") && editor in peers.failingUsers then Some(StoreUnavailable)
                else None
    {
    }

    /** Past the author stage, the join writes only the profile information and the editor's fields. */
    lemma AddUserInfoAfterAuthor(post: Object, k: string)
      requires k != "additional_profile_info" && k != "editorname" && k != "editorslug"
      ensures Get(AddUserInfo(post).post, k) == Get(AuthorStage(post).post, k)
    {
      var author := AuthorStage(post);
      if author.failure.None? {
        var profiled := ProfileStage(author.post, Get(post, "uid"), Get(post, "pid"));
        if profiled.failure.None? {
          EditorFieldsKeeps(profiled.post, Get(post, "editor"), k);
          assert Get(profiled.post, k) == Get(author.post, k);
        }
      }
    }

    /** The editor join writes no property but the editor's name and slug. */
    lemma EditorFieldsKeeps(post: Object, editor: Value, k: string)
      requires k != "editorname" && k != "editorslug"
      ensures Get(EditorFields(post, editor).post, k) == Get(post, k)
    {
    }

    /** A failed read or signature ends the join before it writes anything. */
    lemma AuthorFailure(post: Object)
      ensures !AuthorReadable(post) ==> AddUserInfo(post).post == post && AddUserInfo(post).failure.Some?
      ensures Get(post, "uid") in peers.failingUsers ==> AddUserInfo(post) == Joined(post, Some(StoreUnavailable))
    {
    }

    /** A readable author's display fields, with their defaults: a missing username reads 'anonymous', a missing picture the placeholder. */
    lemma AuthorDefaults(post: Object)
      requires AuthorReadable(post)
      ensures var j := AddUserInfo(post);
              var user := UserRecord(Get(post, "uid"));
              && Get(j.post, "username") == Or(Get(user, "username"), Str("anonymous"))
              && Get(j.post, "userslug") == Or(Get(user, "userslug"), Str(""))
              && Get(j.post, "user_rep") == Or(Get(user, "reputation"), Num(0))
              && Get(j.post, "user_postcount") == Or(Get(user, "postcount"), Num(0))
              && Get(j.post, "user_banned") == Bool(ParseInt(Get(user, "banned")) == Some(1))
              && Get(j.post, "picture") == Or(Get(user, "picture"), Str(env.placeholderPicture))
              && Truthy(Get(j.post, "username")) && Truthy(Get(j.post, "picture"))
    {
      AddUserInfoAfterAuthor(post, "username");
      AddUserInfoAfterAuthor(post, "userslug");
      AddUserInfoAfterAuthor(post, "user_rep");
      AddUserInfoAfterAuthor(post, "user_postcount");
      AddUserInfoAfterAuthor(post, "user_banned");
      AddUserInfoAfterAuthor(post, "picture");
      var user := UserRecord(Get(post, "uid"));
      OrDefault(Get(user, "username"), Str("anonymous"));
      OrDefault(Get(user, "picture"), Str(env.placeholderPicture));
    }

    /** The rendered signature is attached exactly where the site shows signatures. */
    lemma AuthorSignature(post: Object)
      ensures AuthorReadable(post) && SignaturesEnabled() ==>
                Get(AddUserInfo(post).post, "signature") == env.render.parseSignature(Get(UserRecord(Get(post, "uid")), "signature")).value
      ensures !SignaturesEnabled() ==> Get(AddUserInfo(post).post, "signature") == Get(post, "signature")
    {
      AddUserInfoAfterAuthor(post, "signature");
    }

    /** The editor's name and slug are joined only for a post whose editor is not the empty string. */
    lemma EditorJoin(post: Object)
      ensures Get(post, "editor") == Str("") ==>
                && Get(AddUserInfo(post).post, "editorname") == Get(post, "editorname")
                && Get(AddUserInfo(post).post, "editorslug") == Get(post, "editorslug")
      ensures AuthorReadable(post) && AddUserInfo(post).failure.None? && Get(post, "editor") != Str("") ==>
                && Get(AddUserInfo(post).post, "editorname") == Get(UserRecord(Get(post, "editor")), "username")
                && Get(AddUserInfo(post).post, "editorslug") == Get(UserRecord(Get(post, "editor")), "userslug")
    {
      var author := AuthorStage(post);
      if author.failure.None? {
        var profiled := ProfileStage(author.post, Get(post, "uid"), Get(post, "pid"));
        if profiled.failure.None? {
          var info := Get(profiled.post, "additional_profile_info");
          assert Get(profiled.post, "editorname") == Get(author.post, "editorname");
          assert Get(profiled.post, "editorslug") == Get(author.post, "editorslug");
        }
      }
    }

    /** The author join writes no property but the joined ones. */
    lemma AddUserInfoPreserves(post: Object)
      ensures Preserves(post, AddUserInfo(post).post, JoinKeys)
    {
      var author := AuthorStage(post);
      if author.failure.None? {
        var user := UserRecord(Get(post, "uid"));
        AuthorFieldsPreserve(post, user, env.render.parseSignature(Get(user, "signature")).value);
        var profiled := ProfileStage(author.post, Get(post, "uid"), Get(post, "pid"));
        if profiled.failure.None? {
          var info := Get(profiled.post, "additional_profile_info");
          PreservesTrans(post, author.post, profiled.post, JoinKeys);
          EditorFieldsPreserve(profiled.post, Get(post, "editor"));
          PreservesTrans(post, profiled.post, EditorFields(profiled.post, Get(post, "editor")).post, JoinKeys);
        }
      }
    }

    /** A property the join does not write reads the same after it. */
    lemma AddUserInfoKeeps(post: Object, k: string)
      requires k !in JoinKeys
      ensures Get(AddUserInfo(post).post, k) == Get(post, k)
    {
      AddUserInfoPreserves(post);
    }

    lemma AuthorFieldsPreserve(post: Object, user: Object, signature: Value)
      ensures Preserves(post, AuthorFields(post, user, signature), JoinKeys)
    {
    }

    lemma EditorFieldsPreserve(post: Object, editor: Value)
      ensures Preserves(post, EditorFields(post, editor).post, JoinKeys)
    {
    }

    // -------------------------------------------------------------------------
    // Summaries
    // -------------------------------------------------------------------------

    /** The summary fetch of the post: `getPostFields(pid, ['pid', 'tid', 'content', 'uid', 'timestamp', 'deleted'])`. */
    function SummaryFetch(pid: int): Result<Object, Error>
      reads this`posts
    {
      GetPostFields(pid, SummaryFields)
    }

    /** The post's summary joined with its topic and category: the display fields of the post's place. */
    function PlaceFields(post: Object, topic: Object): (o: Object)
      ensures Get(o, "content") == Get(post, "content")
      ensures Get(o, "title") == Str(env.render.escape(Get(topic, "title")))
      ensures Get(o, "topicSlug") == Get(topic, "slug")
      ensures Get(o, "categoryName") == Get(CategoryRecord(Get(topic, "cid")), "name")
      ensures Get(o, "categoryIcon") == Get(CategoryRecord(Get(topic, "cid")), "icon")
      ensures Get(o, "categorySlug") == Get(CategoryRecord(Get(topic, "cid")), "slug")
    {
      var category := CategoryRecord(Get(topic, "cid"));
      post["categoryName" := Get(category, "name")]
          ["categoryIcon" := Get(category, "icon")]
          ["categorySlug" := Get(category, "slug")]
          ["title" := Str(env.render.escape(Get(topic, "title")))]
          ["topicSlug" := Get(topic, "slug")]
    }

    /** The topic stage writes no property but the topic's and category's display fields. */
    lemma PlaceFieldsPreserve(post: Object, topic: Object)
      ensures Preserves(post, PlaceFields(post, topic), PlaceKeys)
    {
    }

    /** The last stage of a summary: a truthy content is parsed and, on request, stripped of markup. */
    function SummaryContent(post: Object, content: Value, stripTags: bool): (s: Step)
      ensures !Truthy(content) ==> s == Keep(post)
      ensures Truthy(content) && env.render.parse(content).Err? ==> s == Abort(env.render.parse(content).error)
      ensures Truthy(content) && env.render.parse(content).Ok? ==>
                s == Keep(post["content" := Str(if stripTags then env.render.stripTags(env.render.parse(content).value)
                                                else env.render.parse(content).value)])
    {
      if Truthy(content) then
        match env.render.parse(content)
        case Err(e) => Abort(e)
        case Ok(c) => Keep(post["content" := Str(if stripTags then env.render.stripTags(c) else c)])
      else Keep(post)
    }

    /** The first stage: fetch the summary fields, drop a deleted post, stamp the time (an uncaught RangeError ends the batch). */
    function FetchStage(pid: int): Step
      reads this`posts
    {
      match SummaryFetch(pid)
      case Err(_) => Abort(TypeFault)
      case Ok(d) =>
        if ParseInt(Get(d, "deleted")) == Some(1) then Skip
        else match IsoTime(env.render, ParseInt(Or(Get(d, "timestamp"), Num(0))))
          case None => Abort(RangeFault)
          case Some(t) => Keep(d["relativeTime" := Str(t)])
    }

    /** The third stage: read the topic (a read error ends the batch), drop a post of a deleted topic, join topic and category. */
    function TopicStage(post: Object): Step
    {
      var tid := Get(post, "tid");
      if tid in peers.failingTopics then Abort(StoreUnavailable)
      else if ParseInt(Get(TopicRecord(tid), "deleted")) == Some(1) then Skip
      else Keep(PlaceFields(post, TopicRecord(tid)))
    }

    /** The fetch stage: a failed fetch aborts as a TypeError, a deleted post is dropped, a time out of range aborts as a RangeError, and otherwise the fetched fields go on with the post's time. */
    lemma FetchStageOutcome(pid: int)
      ensures SummaryFetch(pid).Err? ==> FetchStage(pid) == Abort(TypeFault)
      ensures SummaryFetch(pid).Ok? ==>
                var d := SummaryFetch(pid).value;
                var t := ParseInt(Or(Get(d, "timestamp"), Num(0)));
                && (ParseInt(Get(d, "deleted")) == Some(1) ==> FetchStage(pid) == Skip)
                && (ParseInt(Get(d, "deleted")) != Some(1) && !IsTimeValue(t) ==> FetchStage(pid) == Abort(RangeFault))
                && (ParseInt(Get(d, "deleted")) != Some(1) && IsTimeValue(t) ==>
                      FetchStage(pid) == Keep(d["relativeTime" := Str(env.render.isoTime(t.value))]))
    {
    }

    /** The topic stage: a failed topic read aborts, a post of a deleted topic is dropped, and otherwise the topic's and category's display fields are joined. */
    lemma TopicStageOutcome(post: Object)
      ensures var tid := Get(post, "tid");
              && (tid in peers.failingTopics ==> TopicStage(post) == Abort(StoreUnavailable))
              && (TopicDeleted(tid) ==> TopicStage(post) == Skip)
              && (tid !in peers.failingTopics && !TopicDeleted(tid) ==>
                    && TopicStage(post).Keep?
                    && Preserves(post, TopicStage(post).post, PlaceKeys)
                    && Get(TopicStage(post).post, "title") == Str(env.render.escape(Get(TopicRecord(tid), "title"))))
    {
      PlaceFieldsPreserve(post, TopicRecord(Get(post, "tid")));
    }

    /** What one stage of the summary waterfall does with the post built so far. */
    function RunStage(stage: Stage, pid: int, stripTags: bool, post: Object): Step
      reads this`posts
    {
      match stage
      case FetchPost => FetchStage(pid)
      case JoinAuthor => Keep(AddUserInfo(post).post)  // the join's error is ignored
      case JoinTopic => TopicStage(post)
      case RenderContent => SummaryContent(post, Get(post, "content"), stripTags)
    }

    /** `async.waterfall` over the remaining stages: each stage hands its post to the next, or ends the summary. */
    function Waterfall(stages: seq<Stage>, pid: int, stripTags: bool, post: Object): Step
      reads this`posts
      decreases |stages|
    {
      if stages == [] then Keep(post)
      else match RunStage(stages[0], pid, stripTags, post)
        case Abort(e) => Abort(e)
        case Skip => Skip
        case Keep(next) => Waterfall(stages[1..], pid, stripTags, next)
    }

    /** One pid of `getPostSummaryByPids`. */
    function SummaryStep(pid: int, stripTags: bool): Step
      reads this`posts
    {
      Waterfall(SummaryStages, pid, stripTags, map[])
    }

    /** A waterfall whose first stage hands on a post continues with the rest of the stages. */
    lemma WaterfallContinues(stages: seq<Stage>, pid: int, stripTags: bool, post: Object)
      requires stages != [] && RunStage(stages[0], pid, stripTags, post).Keep?
      ensures Waterfall(stages, pid, stripTags, post)
              == Waterfall(stages[1..], pid, stripTags, RunStage(stages[0], pid, stripTags, post).post)
    {
    }

    /** A stage that drops the post or fails ends the waterfall with its outcome. */
    lemma WaterfallEnds(stages: seq<Stage>, pid: int, stripTags: bool, post: Object)
      requires stages != [] && !RunStage(stages[0], pid, stripTags, post).Keep?
      ensures Waterfall(stages, pid, stripTags, post) == RunStage(stages[0], pid, stripTags, post)
    {
    }

    /** The summary of a post that was fetched, is not deleted and has a valid time, from the author join on. */
    lemma SummaryAfterFetch(pid: int, stripTags: bool) returns (d: Object, p: Object)
      requires FetchStage(pid).Keep?
      ensures SummaryFetch(pid) == Ok(d)
      ensures p == AddUserInfo(FetchStage(pid).post).post
      ensures Get(p, "tid") == Get(d, "tid") && Get(p, "content") == Get(d, "content")
      ensures SummaryStep(pid, stripTags) == Waterfall([JoinTopic, RenderContent], pid, stripTags, p)
    {
      d := SummaryFetch(pid).value;
      var fetched := FetchStage(pid).post;
      assert Get(fetched, "tid") == Get(d, "tid") && Get(fetched, "content") == Get(d, "content");
      p := AddUserInfo(fetched).post;
      AddUserInfoKeeps(fetched, "tid");
      AddUserInfoKeeps(fetched, "content");
      SummaryJoinsAuthor(pid, stripTags);
    }

    /** Past a kept fetch, the waterfall goes on with the author join. */
    lemma SummaryJoinsAuthor(pid: int, stripTags: bool)
      requires FetchStage(pid).Keep?
      ensures SummaryStep(pid, stripTags) == Waterfall([JoinTopic, RenderContent], pid, stripTags, AddUserInfo(FetchStage(pid).post).post)
    {
      assert SummaryStages[0] == FetchPost && SummaryStages[1..] == [JoinAuthor, JoinTopic, RenderContent];
      WaterfallContinues(SummaryStages, pid, stripTags, map[]);
      assert [JoinAuthor, JoinTopic, RenderContent][1..] == [JoinTopic, RenderContent];
      WaterfallContinues([JoinAuthor, JoinTopic, RenderContent], pid, stripTags, FetchStage(pid).post);
    }

    /** A summary is dropped exactly for a deleted post or a post in a deleted topic; a failed fetch, a time out of range or a failed topic read aborts the batch. */
    lemma SummaryStepOutcome(pid: int, stripTags: bool)
      ensures SummaryFetch(pid).Err? ==> SummaryStep(pid, stripTags) == Abort(TypeFault)
      ensures SummaryFetch(pid).Ok? ==>
                var d := SummaryFetch(pid).value;
                var tid := Get(d, "tid");
                var timed := IsTimeValue(ParseInt(Or(Get(d, "timestamp"), Num(0))));
                && (SummaryStep(pid, stripTags).Skip? <==>
                      ParseInt(Get(d, "deleted")) == Some(1) || (timed && TopicDeleted(tid)))
                && (ParseInt(Get(d, "deleted")) != Some(1) && !timed ==> SummaryStep(pid, stripTags) == Abort(RangeFault))
                && (ParseInt(Get(d, "deleted")) != Some(1) && timed && tid in peers.failingTopics ==>
                      SummaryStep(pid, stripTags) == Abort(StoreUnavailable))
    {
      if FetchStage(pid).Keep? {
        var d, p := SummaryAfterFetch(pid, stripTags);
        var placed := TopicStage(p);
        if placed.Keep? {
          WaterfallContinues([JoinTopic, RenderContent], pid, stripTags, p);
          assert [JoinTopic, RenderContent][1..] == [RenderContent];
          var rendered := SummaryContent(placed.post, Get(placed.post, "content"), stripTags);
          assert [RenderContent][0] == RenderContent;
          if rendered.Keep? {
            WaterfallContinues([RenderContent], pid, stripTags, placed.post);
            assert [RenderContent][1..] == [];
          } else {
            WaterfallEnds([RenderContent], pid, stripTags, placed.post);
          }
        } else {
          assert [JoinTopic, RenderContent][0] == JoinTopic;
          WaterfallEnds([JoinTopic, RenderContent], pid, stripTags, p);
        }
      } else {
        assert SummaryStages[0] == FetchPost;
        WaterfallEnds(SummaryStages, pid, stripTags, map[]);
      }
    }

    /** A kept summary is the last stage applied to the post joined with its author and its live topic. */
    lemma SummaryKeptFrom(pid: int, stripTags: bool) returns (d: Object, p: Object, placed: Object)
      requires SummaryStep(pid, stripTags).Keep?
      ensures FetchStage(pid).Keep? && SummaryFetch(pid) == Ok(d)
      ensures ParseInt(Get(d, "deleted")) != Some(1) && !TopicDeleted(Get(d, "tid"))
      ensures p == AddUserInfo(FetchStage(pid).post).post
      ensures Get(p, "tid") == Get(d, "tid") && Get(p, "content") == Get(d, "content")
      ensures placed == PlaceFields(p, TopicRecord(Get(d, "tid")))
      ensures SummaryStep(pid, stripTags) == SummaryContent(placed, Get(d, "content"), stripTags)
    {
      SummaryStepOutcome(pid, stripTags);
      d, p := SummaryAfterFetch(pid, stripTags);
      placed := PlaceFields(p, TopicRecord(Get(d, "tid")));
      assert [JoinTopic, RenderContent][0] == JoinTopic && [JoinTopic, RenderContent][1..] == [RenderContent];
      WaterfallContinues([JoinTopic, RenderContent], pid, stripTags, p);
      assert SummaryStep(pid, stripTags) == Waterfall([RenderContent], pid, stripTags, placed);
      assert Waterfall([RenderContent], pid, stripTags, placed) == SummaryContent(placed, Get(d, "content"), stripTags);
    }

    /** A kept summary carries the rendered content (stripped on request, untouched when falsy), the escaped topic title, the topic slug and the category's name, icon and slug. */
    lemma SummaryStepKept(pid: int, stripTags: bool)
      requires SummaryStep(pid, stripTags).Keep?
      ensures SummaryFetch(pid).Ok?
      ensures var d := SummaryFetch(pid).value;
              var o := SummaryStep(pid, stripTags).post;
              var topic := TopicRecord(Get(d, "tid"));
              var category := CategoryRecord(Get(topic, "cid"));
              && ParseInt(Get(d, "deleted")) != Some(1) && !TopicDeleted(Get(d, "tid"))
              && Get(o, "title") == Str(env.render.escape(Get(topic, "title")))
              && Get(o, "topicSlug") == Get(topic, "slug")
              && Get(o, "categoryName") == Get(category, "name")
              && Get(o, "categoryIcon") == Get(category, "icon")
              && Get(o, "categorySlug") == Get(category, "slug")
              && (Truthy(Get(d, "content")) ==>
                    && env.render.parse(Get(d, "content")).Ok?
                    && Get(o, "content") == Str(if stripTags then env.render.stripTags(env.render.parse(Get(d, "content")).value)
                                               else env.render.parse(Get(d, "content")).value))
              && (!Truthy(Get(d, "content")) ==> Get(o, "content") == Get(d, "content"))
    {
      var d, p, placed := SummaryKeptFrom(pid, stripTags);
    }

    /** A kept summary carries the post's time, `timestamp || 0` in the time-value range. */
    lemma SummaryStepKeptTime(pid: int, stripTags: bool)
      requires SummaryStep(pid, stripTags).Keep?
      ensures SummaryFetch(pid).Ok?
      ensures var t := ParseInt(Or(Get(SummaryFetch(pid).value, "timestamp"), Num(0)));
              && IsTimeValue(t)
              && Get(SummaryStep(pid, stripTags).post, "relativeTime") == Str(env.render.isoTime(t.value))
    {
      var d, p, placed := SummaryKeptFrom(pid, stripTags);
      var o := SummaryStep(pid, stripTags).post;
      assert o == SummaryContent(placed, Get(d, "content"), stripTags).post;
      SummaryContentKeeps(placed, Get(d, "content"), stripTags, "relativeTime");
      PlaceFieldsKeeps(p, TopicRecord(Get(d, "tid")), "relativeTime");
      assert Get(o, "relativeTime") == Get(p, "relativeTime");
      FetchStageStamps(pid);
      AddUserInfoKeeps(FetchStage(pid).post, "relativeTime");
    }

    /** A kept summary carries every property the author join wrote. */
    lemma SummaryStepKeptJoins(pid: int, stripTags: bool)
      requires SummaryStep(pid, stripTags).Keep?
      ensures FetchStage(pid).Keep?
      ensures forall k :: k in JoinKeys ==>
                Get(SummaryStep(pid, stripTags).post, k) == Get(AddUserInfo(FetchStage(pid).post).post, k)
    {
      var d, p, placed := SummaryKeptFrom(pid, stripTags);
      var o := SummaryStep(pid, stripTags).post;
      assert o == SummaryContent(placed, Get(d, "content"), stripTags).post;
      forall k | k in JoinKeys
        ensures Get(o, k) == Get(p, k)
      {
        KeptJoinKey(placed, p, Get(d, "content"), stripTags, TopicRecord(Get(d, "tid")), k);
      }
    }

    /** A joined property passes the topic and content stages unchanged. */
    lemma KeptJoinKey(placed: Object, p: Object, content: Value, stripTags: bool, topic: Object, k: string)
      requires placed == PlaceFields(p, topic) && SummaryContent(placed, content, stripTags).Keep?
      requires k in JoinKeys
      ensures Get(SummaryContent(placed, content, stripTags).post, k) == Get(p, k)
    {
      assert k != "content" && k !in PlaceKeys;
      SummaryContentKeeps(placed, content, stripTags, k);
      PlaceFieldsKeeps(p, topic, k);
    }

    /** The last stage writes no property but the content. */
    lemma SummaryContentKeeps(post: Object, content: Value, stripTags: bool, k: string)
      requires k != "content"
      ensures SummaryContent(post, content, stripTags).Keep?
              ==> Get(SummaryContent(post, content, stripTags).post, k) == Get(post, k)
    {
    }

    /** A property the topic stage does not write reads the same after it. */
    lemma PlaceFieldsKeeps(post: Object, topic: Object, k: string)
      requires k !in PlaceKeys
      ensures Get(PlaceFields(post, topic), k) == Get(post, k)
    {
      PlaceFieldsPreserve(post, topic);
    }

    /** A kept fetch stamps the post's time, `timestamp || 0`, in the time-value range. */
    lemma FetchStageStamps(pid: int)
      requires FetchStage(pid).Keep?
      ensures SummaryFetch(pid).Ok?
      ensures var t := ParseInt(Or(Get(SummaryFetch(pid).value, "timestamp"), Num(0)));
              && IsTimeValue(t)
              && Get(FetchStage(pid).post, "relativeTime") == Str(env.render.isoTime(t.value))
    {
    }

    /** The outcome of each pid's step, in order. */
    function Steps(pids: seq<int>, stripTags: bool): (s: seq<Step>)
      reads this`posts
      ensures |s| == |pids|
      ensures forall i :: 0 <= i < |pids| ==> s[i] == SummaryStep(pids[i], stripTags)
      decreases |pids|
    {
      if pids == [] then [] else [SummaryStep(pids[0], stripTags)] + Steps(pids[1..], stripTags)
    }

    /** The sequential summary pass, keeping the pid beside each post. */
    function SummaryRun(pids: seq<int>, stripTags: bool): Result<seq<(int, Object)>, Error>
      reads this`posts
    {
      Collect(pids, Steps(pids, stripTags))
    }

    /** The pass over a non-empty list begins with its first pid's step. */
    lemma SummaryRunUnfold(pids: seq<int>, stripTags: bool)
      requires pids != []
      ensures SummaryRun(pids, stripTags) ==
                match SummaryStep(pids[0], stripTags)
                case Abort(e) => Err(e)
                case Skip => SummaryRun(pids[1..], stripTags)
                case Keep(o) => Then([(pids[0], o)], SummaryRun(pids[1..], stripTags))
    {
      var steps := Steps(pids, stripTags);
      assert steps[1..] == Steps(pids[1..], stripTags);
    }

    /** What `getPostSummaryByPids(pids, stripTags)` delivers: the kept posts, or the error. */
    function Summaries(pids: seq<int>, stripTags: bool): Result<seq<Object>, Error>
      reads this`posts
    {
      match SummaryRun(pids, stripTags)
      case Ok(pairs) => Ok(Seconds(pairs))
      case Err(e) => Err(e)
    }

    /** The kept pids are a subsequence of the input, each with the post its step keeps. */
    lemma SummaryKeepsSubsequence(pids: seq<int>, stripTags: bool)
      ensures SummaryRun(pids, stripTags).Ok? ==>
                var pairs := SummaryRun(pids, stripTags).value;
                && IsSubsequence(Firsts(pairs), pids)
                && forall k :: 0 <= k < |pairs| ==> SummaryStep(pairs[k].0, stripTags) == Keep(pairs[k].1)
    {
      var steps := Steps(pids, stripTags);
      CollectKeeps(pids, steps);
      if SummaryRun(pids, stripTags).Ok? {
        var pairs := SummaryRun(pids, stripTags).value;
        forall k | 0 <= k < |pairs|
          ensures SummaryStep(pairs[k].0, stripTags) == Keep(pairs[k].1)
        {
          var i :| 0 <= i < |pids| && pids[i] == pairs[k].0 && steps[i] == Keep(pairs[k].1);
        }
      }
    }

    /** A pid of the input is among the kept pids exactly when its step keeps it: deleted posts and posts of deleted topics never are. */
    lemma SummaryOmitsExactly(pids: seq<int>, stripTags: bool)
      ensures SummaryRun(pids, stripTags).Ok? ==>
                forall p :: p in pids ==> (p in Firsts(SummaryRun(pids, stripTags).value) <==> SummaryStep(p, stripTags).Keep?)
    {
      var steps := Steps(pids, stripTags);
      CollectKeeps(pids, steps);
      CollectMissesNothing(pids, steps);
      if SummaryRun(pids, stripTags).Ok? {
        var pairs := SummaryRun(pids, stripTags).value;
        forall p | p in pids
          ensures p in Firsts(pairs) <==> SummaryStep(p, stripTags).Keep?
        {
          var i :| 0 <= i < |pids| && pids[i] == p;
          assert steps[i] == SummaryStep(p, stripTags);
          if p in Firsts(pairs) {
            var k :| 0 <= k < |pairs| && Firsts(pairs)[k] == p;
            var j :| 0 <= j < |pids| && pids[j] == pairs[k].0 && steps[j] == Keep(pairs[k].1);
            assert steps[j] == SummaryStep(p, stripTags);
          }
        }
      }
    }

    /** The batch fails exactly when some pid's step aborts, with the first such error, and then it delivers no posts. */
    lemma SummaryAbortsExactly(pids: seq<int>, stripTags: bool)
      ensures SummaryRun(pids, stripTags).Err? <==> exists i :: 0 <= i < |pids| && SummaryStep(pids[i], stripTags).Abort?
      ensures Summaries(pids, stripTags).Err? ==>
                exists i :: 0 <= i < |pids| && SummaryStep(pids[i], stripTags) == Abort(Summaries(pids, stripTags).error)
                            && forall j :: 0 <= j < i ==> !SummaryStep(pids[j], stripTags).Abort?
    {
      var steps := Steps(pids, stripTags);
      CollectAborts(pids, steps);
      if exists i :: 0 <= i < |pids| && SummaryStep(pids[i], stripTags).Abort? {
        var i :| 0 <= i < |pids| && SummaryStep(pids[i], stripTags).Abort?;
        assert steps[i].Abort?;
      }
      if SummaryRun(pids, stripTags).Err? {
        var i :| 0 <= i < |steps| && steps[i] == Abort(SummaryRun(pids, stripTags).error)
                 && forall j :: 0 <= j < i ==> !steps[j].Abort?;
        assert forall j :: 0 <= j < i ==> steps[j] == SummaryStep(pids[j], stripTags);
      }
    }

    /** The summaries delivered are at most one per input pid, each the post some pid's step keeps, in input order. */
    lemma SummariesKept(pids: seq<int>, stripTags: bool)
      ensures Summaries(pids, stripTags).Ok? ==>
                var posts := Summaries(pids, stripTags).value;
                && |posts| <= |pids|
                && forall j :: 0 <= j < |posts| ==> exists i :: 0 <= i < |pids| && SummaryStep(pids[i], stripTags) == Keep(posts[j])
    {
      var steps := Steps(pids, stripTags);
      CollectKeeps(pids, steps);
      if SummaryRun(pids, stripTags).Ok? {
        var pairs := SummaryRun(pids, stripTags).value;
        SubsequenceLength(Firsts(pairs), pids);
        forall j | 0 <= j < |pairs|
          ensures exists i :: 0 <= i < |pids| && SummaryStep(pids[i], stripTags) == Keep(Seconds(pairs)[j])
        {
          var i :| 0 <= i < |pids| && pids[i] == pairs[j].0 && steps[i] == Keep(pairs[j].1);
          assert SummaryStep(pids[i], stripTags) == Keep(Seconds(pairs)[j]);
        }
      }
    }

    /** `getPostSummaryByPids(pids, stripTags)`: a sequential pass that pushes each kept post. */
    method GetPostSummaryByPids(pids: seq<int>, stripTags: bool) returns (r: Result<seq<Object>, Error>)
      ensures r == Summaries(pids, stripTags)
    {
      var summaries: seq<Object> := [];
      ghost var kept: seq<(int, Object)> := [];
      assert pids[0..] == pids;
      ThenNothing(SummaryRun(pids, stripTags));
      var i := 0;
      while i < |pids|
        invariant 0 <= i <= |pids|
        invariant summaries == Seconds(kept)
        invariant SummaryRun(pids, stripTags) == Then(kept, SummaryRun(pids[i..], stripTags))
      {
        SummaryRunUnfold(pids[i..], stripTags);
        assert pids[i..][0] == pids[i] && pids[i..][1..] == pids[i + 1..];
        var step := SummaryStep(pids[i], stripTags);
        if step.Abort? {
          return Err(step.error);
        }
        if step.Keep? {
          var entry := (pids[i], step.post);
          assert Seconds(kept + [entry]) == Seconds(kept) + [step.post];
          ThenAssoc(kept, entry, SummaryRun(pids[i + 1..], stripTags));
          summaries := summaries + [step.post];
          kept := kept + [entry];
        }
        i := i + 1;
      }
      assert kept + [] == kept;
      r := Ok(summaries);
    }

    /** The pids `getFavourites(uid)` summarises, most recent favourite first. */
    function FavouritePids(uid: Value): (pids: seq<int>)
      ensures pids == Reverse(if uid in peers.favourites then peers.favourites[uid] else [])
    {
      var ascending := if uid in peers.favourites then peers.favourites[uid] else [];
      WholeRevRange(ascending);
      SortedSetRevRange(ascending, 0, -1)
    }

    /** `getFavourites(uid)`: the summaries, markup kept, of the user's favourites from the newest. */
    method GetFavourites(uid: Value) returns (r: Result<seq<Object>, Error>)
      ensures r == Summaries(Reverse(if uid in peers.favourites then peers.favourites[uid] else []), false)
    {
      r := GetPostSummaryByPids(FavouritePids(uid), false);
    }

    // -------------------------------------------------------------------------
    // Re-indexing
    // -------------------------------------------------------------------------

    /** The value re-indexing indexes for a pid: its content as getPostField reports it, when non-empty; a read error counts as no content. */
    function IndexedContent(pid: int): (c: Option<Value>)
      reads this`posts
      ensures c.Some? ==> HasContent(c.value) && GetPostField(pid, "content") == Ok(c.value)
      ensures c.None? ==> GetPostField(pid, "content").Err? || !HasContent(GetPostField(pid, "content").value)
    {
      match GetPostField(pid, "content")
      case Err(_) => None
      case Ok(content) => if HasContent(content) then Some(content) else None
    }

    /** `searchRemove('post', pid)` then, for non-empty content, `searchIndex('post', content, pid)`. */
    function ReindexOne(index: map<int, seq<Value>>, pid: int): (r: map<int, seq<Value>>)
      reads this`posts
      ensures pid in r <==> IndexedContent(pid).Some?
      ensures pid in r ==> r[pid] == [IndexedContent(pid).value]
      ensures forall p :: p != pid ==> (p in r <==> p in index) && (p in r ==> r[p] == index[p])
    {
      match IndexedContent(pid)
      case None => index - {pid}
      case Some(content) => index[pid := [content]]
    }

    /** The index after re-indexing `pids` in order. */
    function Reindexed(index: map<int, seq<Value>>, pids: seq<int>): map<int, seq<Value>>
      reads this`posts
      decreases |pids|
    {
      if pids == [] then index
      else ReindexOne(Reindexed(index, pids[..|pids| - 1]), pids[|pids| - 1])
    }

    /** After re-indexing, a listed pid has exactly one entry, its content, when the content is non-empty, and none otherwise; other pids keep theirs. */
    lemma {:induction false} ReindexedAt(index: map<int, seq<Value>>, pids: seq<int>, p: int)
      ensures p in pids ==>
                && (p in Reindexed(index, pids) <==> IndexedContent(p).Some?)
                && (p in Reindexed(index, pids) ==> Reindexed(index, pids)[p] == [IndexedContent(p).value])
      ensures p !in pids ==>
                && (p in Reindexed(index, pids) <==> p in index)
                && (p in index ==> Reindexed(index, pids)[p] == index[p])
      decreases |pids|
    {
      if pids != [] {
        var init := pids[..|pids| - 1];
        ReindexedAt(index, init, p);
        assert p in pids <==> p in init || p == pids[|pids| - 1];
      }
    }

    /** Re-indexing twice leaves the index as re-indexing once. */
    lemma ReindexIdempotent(index: map<int, seq<Value>>, pids: seq<int>)
      ensures Reindexed(Reindexed(index, pids), pids) == Reindexed(index, pids)
    {
      var once := Reindexed(index, pids);
      var twice := Reindexed(once, pids);
      forall p
        ensures (p in twice <==> p in once) && (p in twice ==> twice[p] == once[p])
      {
        ReindexedAt(index, pids, p);
        ReindexedAt(once, pids, p);
      }
      assert twice.Keys == once.Keys;
    }

    /** `reIndexPids(pids)`: re-index each pid; always reports success. */
    method ReIndexPids(pids: seq<int>) returns (message: string)
      modifies this`searchIndex
      ensures searchIndex == Reindexed(old(searchIndex), pids)
      ensures forall p :: p in pids ==> (p in searchIndex <==> IndexedContent(p).Some?)
      ensures forall p :: p in pids && p in searchIndex ==> searchIndex[p] == [IndexedContent(p).value]
      ensures forall p :: p !in pids ==> (p in searchIndex <==> p in old(searchIndex))
      ensures message == "Posts reindexed"
    {
      for i := 0 to |pids|
        invariant searchIndex == Reindexed(old(searchIndex), pids[..i])
      {
        assert pids[..i + 1][..i] == pids[..i] && pids[..i + 1][i] == pids[i];
        searchIndex := ReindexOne(searchIndex, pids[i]);
      }
      assert pids[..|pids|] == pids;
      forall p
        ensures p in pids ==> (p in searchIndex <==> IndexedContent(p).Some?)
        ensures p in pids && p in searchIndex ==> searchIndex[p] == [IndexedContent(p).value]
        ensures p !in pids ==> (p in searchIndex <==> p in old(searchIndex))
      {
        ReindexedAt(old(searchIndex), pids, p);
      }
      message := "Posts reindexed";
    }
  }
}
