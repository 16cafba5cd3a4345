/** Comments under a session: who may comment on a post
    (src/RecordExtendPost.php), the options third-party plugins set
    (src/CommentOptions.php) and the public-side hooks around comment
    creation and the post and comment action forms
    (src/FrontendBehaviors.php). */
module Comments {
  import opened Php
  import opened Texts

  // =====================================================================
  // RecordExtendPost::commentsActive
  // =====================================================================

  const DAY: int := 86400

  /** What `commentsActive` reads: the plugin's `limit_comment` setting,
      `App::auth()->check(My::id(), blog id)`, the blog's `allow_comments`
      and `comments_ttl` (in days), and `time()`. */
  datatype Gate = Gate(limitComment: bool, permitted: bool, allowComments: bool, ttlDays: int, now: int)

  /** The post: `post_open_comment` and its timestamp `getTS()`. */
  datatype PostRecord = PostRecord(openComment: bool, ts: int)

  /** The moment comments on `p` close: its date plus the blog's delay. */
  function ClosesAt(g: Gate, p: PostRecord): int {
    p.ts + g.ttlDays * DAY
  }

  /** `commentsActive($rs)`: a limited blog only lets permitted users
      comment; the blog and the post must accept comments; a delay of 0
      days never closes them, any other closes them once it has run out. */
  function CommentsActive(g: Gate, p: PostRecord): (r: bool)
    ensures g.limitComment && !g.permitted ==> !r
    ensures r ==> g.allowComments && p.openComment
    ensures g.ttlDays == 0 ==> (r <==> (!g.limitComment || g.permitted) && g.allowComments && p.openComment)
    ensures g.ttlDays != 0 ==> (r <==> (!g.limitComment || g.permitted) && g.allowComments && p.openComment && g.now < ClosesAt(g, p))
  {
    (!g.limitComment || (g.limitComment && g.permitted))
    && g.allowComments
    && p.openComment
    && (g.ttlDays == 0 || g.now - g.ttlDays * DAY < p.ts)
  }

  /** Without `limit_comment`, the user's permission plays no part. */
  lemma PermissionIrrelevantUnlimited(g: Gate, p: PostRecord)
    requires !g.limitComment
    ensures CommentsActive(g, p) == CommentsActive(g.(permitted := !g.permitted), p)
  {
  }

  /** Time only closes comments: active now means active at any earlier
      moment. */
  lemma ClosedStaysClosed(g: Gate, p: PostRecord, earlier: int)
    requires earlier <= g.now
    ensures CommentsActive(g, p) ==> CommentsActive(g.(now := earlier), p)
  {
  }

  // =====================================================================
  // CommentOptions
  // =====================================================================

  /** A call a `FrontendSessionCommentsActive` listener makes on the
      options it is handed: `setActive($v)` or `setModerate($v)`. */
  datatype OptionCall = ActiveCall(value: bool) | ModerateCall(value: bool)

  /** The value the `active` (or, with `active` false, the `moderate`)
      option holds after `calls`, starting from `initial`: the value of the
      last call of that kind. */
  function Chosen(calls: seq<OptionCall>, active: bool, initial: Option<bool>): Option<bool>
    decreases |calls|
  {
    if calls == [] then initial
    else
      var c := calls[|calls| - 1];
      if c.ActiveCall? == active then Some(c.value) else Chosen(calls[..|calls| - 1], active, initial)
  }

  /** With no call of the kind, the option keeps its value. */
  lemma {:induction false} ChosenUntouched(calls: seq<OptionCall>, active: bool, initial: Option<bool>)
    requires forall i :: 0 <= i < |calls| ==> calls[i].ActiveCall? != active
    ensures Chosen(calls, active, initial) == initial
    decreases |calls|
  {
    if calls != [] {
      ChosenUntouched(calls[..|calls| - 1], active, initial);
    }
  }

  /** The last call of the kind decides, whatever came before it. */
  lemma {:induction false} ChosenLast(calls: seq<OptionCall>, active: bool, initial: Option<bool>, j: int)
    requires 0 <= j < |calls| && calls[j].ActiveCall? == active
    requires forall i :: j < i < |calls| ==> calls[i].ActiveCall? != active
    ensures Chosen(calls, active, initial) == Some(calls[j].value)
    decreases |calls|
  {
    if j < |calls| - 1 {
      ChosenLast(calls[..|calls| - 1], active, initial, j);
    }
  }

  /** The options a listener may set; both start unset (`null`). */
  class CommentOptions {
    var active: Option<bool>
    var moderate: Option<bool>

    constructor()
      ensures IsActive() == None && IsModerate() == None
    {
      active := None;
      moderate := None;
    }

    /** `setActive($value)`: returns the same object. */
    method SetActive(value: bool) returns (self: CommentOptions)
      modifies this
      ensures self == this
      ensures IsActive() == Some(value) && IsModerate() == old(IsModerate())
    {
      active := Some(value);
      self := this;
    }

    /** `setModerate($value)`: returns the same object. */
    method SetModerate(value: bool) returns (self: CommentOptions)
      modifies this
      ensures self == this
      ensures IsModerate() == Some(value) && IsActive() == old(IsActive())
    {
      moderate := Some(value);
      self := this;
    }

    function IsActive(): Option<bool>
      reads this
    {
      active
    }

    function IsModerate(): Option<bool>
      reads this
    {
      moderate
    }

    /** `callBehavior('FrontendSessionCommentsActive', $option)`: the
        listeners' calls, in order. */
    method Notify(calls: seq<OptionCall>)
      modifies this
      ensures IsActive() == Chosen(calls, true, old(IsActive()))
      ensures IsModerate() == Chosen(calls, false, old(IsModerate()))
    {
      ghost var active0, moderate0 := active, moderate;
      var i := 0;
      while i < |calls|
        invariant 0 <= i <= |calls|
        invariant active == Chosen(calls[..i], true, active0)
        invariant moderate == Chosen(calls[..i], false, moderate0)
      {
        assert calls[..i + 1][..i] == calls[..i];
        var self;
        match calls[i] {
          case ActiveCall(v) =>
            self := SetActive(v);
          case ModerateCall(v) =>
            self := SetModerate(v);
        }
        i := i + 1;
      }
      assert calls[..i] == calls;
    }
  }

  // =====================================================================
  // FrontendBehaviors::publicBeforeCommentCreate
  // =====================================================================

  /** Dotclear's comment statuses `PUBLISHED` and `UNPUBLISHED`. */
  const COMMENT_PUBLISHED: int := 1
  const COMMENT_UNPUBLISHED: int := 0

  /** `getInfo('user_cn')`, `('user_email')`, `('user_url')` of the signed in user. */
  datatype UserInfo = UserInfo(cn: string, email: string, url: string)

  /** What the hook consults: the post's `post_open_comment` as
      `getPosts(['post_id' => $id])` finds it (`None`: no such post), the
      listeners' calls, `limit_comment`, `App::auth()->userID()` ('' for
      an anonymous visitor), the permission check and the user's info. */
  datatype CreateEnv = CreateEnv(
    postOpen: int -> Option<bool>,
    listeners: seq<OptionCall>,
    limitComment: bool,
    userId: string,
    permitted: bool,
    info: UserInfo)

  /** The comment cursor's fields the hook reads and writes. */
  datatype CommentFields = CommentFields(postId: int, status: int, author: string, email: string, site: string)

  /** The comment cursor, whose fields `setField` changes in place. */
  class CommentCursor {
    var postId: int
    var status: int
    var author: string
    var email: string
    var site: string

    constructor(f: CommentFields)
      ensures Fields() == f
    {
      postId, status, author, email, site := f.postId, f.status, f.author, f.email, f.site;
    }

    function Fields(): CommentFields
      reads this
    {
      CommentFields(postId, status, author, email, site)
    }
  }

  /** The cursor after the hook and the exception it throws, if any. */
  datatype Created = Created(fields: CommentFields, error: Option<Text>)

  /** `publicBeforeCommentCreate($cur)` on fields `f`. */
  function BeforeCreateSpec(env: CreateEnv, f: CommentFields): Created {
    if f.postId == 0 || env.postOpen(f.postId) != Some(true) then Created(f, None)
    else
      var moderate := Chosen(env.listeners, false, None);
      var moderated :=
        if moderate.Some? then f.(status := if moderate.value then COMMENT_UNPUBLISHED else COMMENT_PUBLISHED) else f;
      if Chosen(env.listeners, true, None).None? && env.limitComment && env.userId == "" then
        Created(moderated, Some(CommentsLimited))
      else if env.permitted then
        Created(moderated.(author := env.info.cn, email := env.info.email, site := env.info.url), None)
      else Created(moderated, None)
  }

  /** What the hook does, case by case: nothing without an open post; the
      moderation a listener asked for, if any; the refusal of anonymous
      comments on a limited blog that no listener ruled on; the user's own
      name, email and site for a permitted user. The post never changes. */
  lemma BeforeCreateRules(env: CreateEnv, f: CommentFields, r: Created)
    requires r == BeforeCreateSpec(env, f)
    ensures f.postId == 0 || env.postOpen(f.postId) != Some(true) ==> r == Created(f, None)
    ensures r.fields.postId == f.postId
    ensures r.error.Some? ==> r.error == Some(CommentsLimited) && env.limitComment && env.userId == ""
    ensures r.error.Some? || !env.permitted ==> (r.fields.author, r.fields.email, r.fields.site) == (f.author, f.email, f.site)
    ensures f.postId != 0 && env.postOpen(f.postId) == Some(true) && r.error.None? && env.permitted ==>
      (r.fields.author, r.fields.email, r.fields.site) == (env.info.cn, env.info.email, env.info.url)
    ensures r.fields.status != f.status ==> r.fields.status == COMMENT_UNPUBLISHED || r.fields.status == COMMENT_PUBLISHED
  {
  }

  /** When no listener calls `setModerate` the status is kept; when no
      listener calls `setActive`, an anonymous comment on an open post of a
      limited blog is refused. */
  lemma BeforeCreateWithoutListeners(env: CreateEnv, f: CommentFields, r: Created)
    requires r == BeforeCreateSpec(env, f)
    ensures (forall i :: 0 <= i < |env.listeners| ==> env.listeners[i].ActiveCall?) ==> r.fields.status == f.status
    ensures (forall i :: 0 <= i < |env.listeners| ==> env.listeners[i].ModerateCall?)
      && f.postId != 0 && env.postOpen(f.postId) == Some(true) && env.limitComment && env.userId == ""
      ==> r.error == Some(CommentsLimited)
  {
    if forall i :: 0 <= i < |env.listeners| ==> env.listeners[i].ActiveCall? {
      ChosenUntouched(env.listeners, false, None);
    }
    if forall i :: 0 <= i < |env.listeners| ==> env.listeners[i].ModerateCall? {
      ChosenUntouched(env.listeners, true, None);
    }
  }

  /** The last `setModerate` decides the status: true holds the comment
      back, false publishes it. */
  lemma BeforeCreateModeration(env: CreateEnv, f: CommentFields, j: int)
    requires f.postId != 0 && env.postOpen(f.postId) == Some(true)
    requires 0 <= j < |env.listeners| && env.listeners[j] == ModerateCall(env.listeners[j].value)
    requires forall i :: j < i < |env.listeners| ==> env.listeners[i].ActiveCall?
    ensures BeforeCreateSpec(env, f).fields.status
      == if env.listeners[j].value then COMMENT_UNPUBLISHED else COMMENT_PUBLISHED
  {
    ChosenLast(env.listeners, false, None, j);
  }

  /** `publicBeforeCommentCreate($cur)`: `error` is the exception thrown. */
  method BeforeCommentCreate(env: CreateEnv, cur: CommentCursor) returns (error: Option<Text>)
    modifies cur
    ensures Created(cur.Fields(), error) == BeforeCreateSpec(env, old(cur.Fields()))
  {
    if cur.postId == 0 || env.postOpen(cur.postId) != Some(true) {
      return None;
    }
    var option := new CommentOptions();
    option.Notify(env.listeners);
    var moderate := option.IsModerate();
    if moderate.Some? {
      cur.status := if moderate.value then COMMENT_UNPUBLISHED else COMMENT_PUBLISHED;
    }
    if option.IsActive().None? && env.limitComment && env.userId == "" {
      return Some(CommentsLimited);
    }
    if env.permitted {
      cur.author := env.info.cn;
      cur.email := env.info.email;
      cur.site := env.info.url;
    }
    error := None;
  }

  // =====================================================================
  // The action forms under a post and under a comment
  // =====================================================================

  /** An item a `FrontendSessionPostForm` (or `…CommentForm`) listener
      adds to the form: a `Submit` button or anything else; `NoneElement`
      is the empty `None` element the form falls back to. */
  datatype Item = Submit(id: string) | Widget(id: string) | NoneElement

  /** The submit buttons of `items`, in order. */
  function Submits(items: seq<Item>): (r: seq<Item>)
    ensures |r| <= |items|
    ensures forall b :: b in r <==> b in items && b.Submit?
    decreases |items|
  {
    if items == [] then []
    else
      var init := items[..|items| - 1];
      assert items == init + [items[|items| - 1]];
      Submits(init) + (if items[|items| - 1].Submit? then [items[|items| - 1]] else [])
  }

  /** `iterator_to_array($buttons)` after the loop has looked at the first
      `k` entries: the key of each item is its position, and the items
      before `k` that are not buttons have been unset. */
  function Kept(items: seq<Item>, k: int): map<int, Item> {
    map j | 0 <= j < |items| && (j >= k || items[j].Submit?) :: items[j]
  }

  /** The values of `m` under the keys below `n`, by increasing key (the
      spread `...$buttons`). */
  function InOrder(m: map<int, Item>, n: nat): seq<Item> {
    if n == 0 then []
    else InOrder(m, n - 1) + (if n - 1 in m then [m[n - 1]] else [])
  }

  lemma {:induction false} InOrderKept(items: seq<Item>, n: nat)
    requires n <= |items|
    ensures InOrder(Kept(items, |items|), n) == Submits(items[..n])
  {
    if n > 0 {
      InOrderKept(items, n - 1);
      assert items[..n][..n - 1] == items[..n - 1];
    }
  }

  /** The filter loop over the form's buttons: every entry that is not a
      submit button is unset, the others keep their keys. */
  method FilterButtons(items: seq<Item>) returns (buttons: map<int, Item>)
    ensures buttons == Kept(items, |items|)
  {
    buttons := map j | 0 <= j < |items| :: items[j];
    assert buttons == Kept(items, 0);
    var k := 0;
    while k < |items|
      invariant 0 <= k <= |items|
      invariant buttons == Kept(items, k)
    {
      if !items[k].Submit? {
        buttons := buttons - {k};
      }
      assert buttons == Kept(items, k + 1);
      k := k + 1;
    }
  }

  /** The items the form shows: the buttons, or the `None` element alone. */
  function Shown(items: seq<Item>): (r: seq<Item>)
    ensures r != []
    ensures r == [NoneElement] || forall b :: b in r ==> b.Submit?
    ensures forall b :: b in items && b.Submit? ==> b in r
  {
    if Submits(items) == [] then [NoneElement] else Submits(items)
  }

  /** The filter leaves nothing exactly when there is no submit button. */
  lemma NothingKept(items: seq<Item>)
    ensures Kept(items, |items|) == map[] <==> Submits(items) == []
  {
    if Submits(items) != [] {
      var b := Submits(items)[0];
      assert b in Submits(items);
      var j :| 0 <= j < |items| && items[j] == b;
      assert j in Kept(items, |items|);
    }
    if Kept(items, |items|) != map[] {
      var k :| k in Kept(items, |items|);
      assert items[k] in Submits(items);
    }
  }

  /** The buttons of the form, as the filter loop and `$buttons === []` decide. */
  method FormButtons(items: seq<Item>) returns (shown: seq<Item>)
    ensures shown == Shown(items)
  {
    var buttons := FilterButtons(items);
    InOrderKept(items, |items|);
    NothingKept(items);
    assert items[..|items|] == items;
    if buttons == map[] {
      shown := [NoneElement];
    } else {
      shown := InOrder(buttons, |items|);
    }
  }

  /** The request as the post and comment hooks see it: the permission
      check, `(int) post_id` and `(int) comment_id` of the context (0 when
      missing), the POSTed `<id>post` and `<id>comment` fields, and whether
      `checkForm()` accepts the request's nonce. */
  datatype Visit = Visit(permitted: bool, postId: int, commentId: int,
                         postedPost: Option<string>, postedComment: Option<string>, nonceOk: bool)

  /** What a hook does: no form at all, the request refused by
      `checkForm()`, or the form shown after firing (or not) the action
      behaviour. */
  datatype ActionForm = NoForm | Refused | Form(fired: bool, items: seq<Item>)

  /** `!empty($_POST[$k]) && $_POST[$k] == $id`, the posted id being the
      decimal text of `$id`. */
  predicate Posted(v: Option<string>, id: int) {
    !EmptyOpt(v) && v.value == IntToString(id)
  }

  /** `publicEntryAfterContent()`: `items` are what the form listeners add. */
  function EntryAfterContent(v: Visit, items: seq<Item>): (r: ActionForm)
    ensures r != NoForm <==> v.permitted && v.postId != 0
    ensures r == Refused ==> Posted(v.postedPost, v.postId) && !v.nonceOk
    ensures r.Form? ==> r.items == Shown(items) && (r.fired <==> Posted(v.postedPost, v.postId))
  {
    if !(v.permitted && v.postId != 0) then NoForm
    else if Posted(v.postedPost, v.postId) && !v.nonceOk then Refused
    else Form(Posted(v.postedPost, v.postId), Shown(items))
  }

  /** `publicCommentAfterContent()`: the same under a comment, keyed by
      the comment's id. */
  function CommentAfterContent(v: Visit, items: seq<Item>): (r: ActionForm)
    ensures r != NoForm <==> v.permitted && v.postId != 0 && v.commentId != 0
    ensures r == Refused ==> Posted(v.postedComment, v.commentId) && !v.nonceOk
    ensures r.Form? ==> r.items == Shown(items) && (r.fired <==> Posted(v.postedComment, v.commentId))
  {
    if !(v.permitted && v.postId != 0 && v.commentId != 0) then NoForm
    else if Posted(v.postedComment, v.commentId) && !v.nonceOk then Refused
    else Form(Posted(v.postedComment, v.commentId), Shown(items))
  }

  /** The action fires only for the post whose id was posted: two posts
      with different ids never both fire on the same request. */
  lemma ActionForOnePost(v: Visit, w: Visit, items: seq<Item>)
    requires w == v.(postId := w.postId)
    requires EntryAfterContent(v, items) == Form(true, Shown(items))
    requires EntryAfterContent(w, items) == Form(true, Shown(items))
    ensures v.postId == w.postId
  {
    IntToStringInjective(v.postId, w.postId);
  }

  // =====================================================================
  // FrontendBehaviors::publicCommentFormBeforeContent
  // =====================================================================

  /** `publicCommentFormBeforeContent()`: a permitted user's name, email
      and site fill the `name`, `mail` and `site` entries of the context's
      `comment_preview`, when the context has one. */
  function FillPreview(permitted: bool, preview: Option<map<string, string>>, info: UserInfo): (r: Option<map<string, string>>)
    ensures r.None? <==> preview.None?
    ensures !permitted ==> r == preview
    ensures permitted && r.Some? ==>
      r.value.Keys == preview.value.Keys + {"name", "mail", "site"}
      && r.value["name"] == info.cn && r.value["mail"] == info.email && r.value["site"] == info.url
      && forall k :: k in preview.value && k !in ["name", "mail", "site"] ==> r.value[k] == preview.value[k]
  {
    if permitted && preview.Some? then
      Some(preview.value["name" := info.cn]["mail" := info.email]["site" := info.url])
    else preview
  }
}
