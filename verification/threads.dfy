/**
 `parse_thread`: the record normaliser. It evaluates a fixed JMESPath
 multiselect hash over one post payload and post-processes two of the
 fields (videos, reply_count) and adds a derived `url`.
 */
module Threads {

  import opened Wrappers
  import opened Text
  import opened Json
  import opened JmesPath

  /** The exceptions the scraper's core can raise. */
  datatype Error =
    | NoThreadData            // ValueError("could not find thread data in page")
    | MalformedJson           // json.loads raising on a blob that passed the marker filter
    | NullPayload             // TypeError: the multiselect hash of a null payload is None, then subscripted
    | NotIterable(value: Json)   // TypeError: `for t in thread` over None, a bool or an int
    | Unhashable(value: Json)    // TypeError: a list or dict among the video URLs put into a set
    | NoSplit(value: Json)       // AttributeError: `.split` on a truthy reply count that is not an int or str
    | NotAnInteger(token: string) // ValueError: int() of the reply count's first token

  /** The errors parse_thread itself can raise. */
  predicate RecordError(e: Error) {
    e.NullPayload? || e.Unhashable? || e.NoSplit? || e.NotAnInteger?
  }

  /** The flat record parse_thread returns: one field per key of the query, plus `url`. */
  datatype Thread = Thread(
    text: Json,
    publishedOn: Json,
    id: Json,
    pk: Json,
    code: Json,
    username: Json,
    userPic: Json,
    userVerified: Json,
    userPk: Json,
    userId: Json,
    hasAudio: Json,
    replyCount: Json,
    likeCount: Json,
    images: Json,
    imageCount: Json,
    videos: seq<Json>,
    url: string)

  /** The record as the Python dict it is, keys in insertion order (the CSV columns). */
  function Row(t: Thread): (r: seq<(string, Json)>)
    ensures |r| == |FieldNames|
    ensures forall i :: 0 <= i < |r| ==> r[i].0 == FieldNames[i]
    ensures r[15] == ("videos", Arr(t.videos)) && r[16] == ("url", Str(t.url))
  {
    [ ("text", t.text), ("published_on", t.publishedOn), ("id", t.id), ("pk", t.pk),
      ("code", t.code), ("username", t.username), ("user_pic", t.userPic),
      ("user_verified", t.userVerified), ("user_pk", t.userPk), ("user_id", t.userId),
      ("has_audio", t.hasAudio), ("reply_count", t.replyCount), ("like_count", t.likeCount),
      ("images", t.images), ("image_count", t.imageCount), ("videos", Arr(t.videos)),
      ("url", Str(t.url)) ]
  }

  const FieldNames: seq<string> :=
    [ "text", "published_on", "id", "pk", "code", "username", "user_pic",
      "user_verified", "user_pk", "user_id", "has_audio", "reply_count",
      "like_count", "images", "image_count", "videos", "url" ]

  // The query's key paths, one per scalar field.
  const TextPath: Path := [Key("post"), Key("caption"), Key("text")]
  const PublishedOnPath: Path := [Key("post"), Key("taken_at")]
  const IdPath: Path := [Key("post"), Key("id")]
  const PkPath: Path := [Key("post"), Key("pk")]
  const CodePath: Path := [Key("post"), Key("code")]
  const UsernamePath: Path := [Key("post"), Key("user"), Key("username")]
  const UserPicPath: Path := [Key("post"), Key("user"), Key("profile_pic_url")]
  const UserVerifiedPath: Path := [Key("post"), Key("user"), Key("is_verified")]
  const UserPkPath: Path := [Key("post"), Key("user"), Key("pk")]
  const UserIdPath: Path := [Key("post"), Key("user"), Key("id")]
  const HasAudioPath: Path := [Key("post"), Key("has_audio")]
  const ReplyCountPath: Path := [Key("view_replies_cta_string")]
  const LikeCountPath: Path := [Key("post"), Key("like_count")]
  const ImageCountPath: Path := [Key("post"), Key("carousel_media_count")]

  /**
   The query's plain columns, in the order the query lists them: each column
   name with the key path whose value it takes unchanged.
   */
  const ScalarQuery: seq<(string, Path)> :=
    [ ("text", TextPath), ("published_on", PublishedOnPath), ("id", IdPath),
      ("pk", PkPath), ("code", CodePath), ("username", UsernamePath),
      ("user_pic", UserPicPath), ("user_verified", UserVerifiedPath),
      ("user_pk", UserPkPath), ("user_id", UserIdPath), ("has_audio", HasAudioPath),
      ("like_count", LikeCountPath), ("image_count", ImageCountPath) ]

  // The two projections: `post.carousel_media[].image_versions2.candidates[1].url`
  // and `post.video_versions[].url`.
  const CarouselPath: Path := [Key("post"), Key("carousel_media")]
  const ImageUrlPath: Path := [Key("image_versions2"), Key("candidates"), Index(1), Key("url")]
  const VideoVersionsPath: Path := [Key("post"), Key("video_versions")]
  const VideoUrlPath: Path := [Key("url")]

  /** No two elements of `xs` are equal as members of a Python set. */
  predicate SetDistinct(xs: seq<Json>)
    requires forall i :: 0 <= i < |xs| ==> Hashable(xs[i])
  {
    forall i, j :: 0 <= i < j < |xs| ==> HashKey(xs[i]) != HashKey(xs[j])
  }

  /** Some element of `xs` is equal to `x` as a member of a Python set. */
  predicate SetMember(x: Json, xs: seq<Json>)
    requires Hashable(x) && forall i :: 0 <= i < |xs| ==> Hashable(xs[i])
  {
    exists j :: 0 <= j < |xs| && HashKey(xs[j]) == HashKey(x)
  }

  /**
   `list(set(xs))`: one representative per set-equality class, the first
   occurrence, as Python's set keeps the element inserted first.
   */
  function Dedup(xs: seq<Json>): (r: seq<Json>)
    requires forall i :: 0 <= i < |xs| ==> Hashable(xs[i])
    ensures forall i :: 0 <= i < |r| ==> r[i] in xs
    ensures forall i :: 0 <= i < |r| ==> Hashable(r[i])
    ensures SetDistinct(r)
    ensures forall i :: 0 <= i < |xs| ==> SetMember(xs[i], r)
    decreases |xs|
  {
    if xs == [] then []
    else
      var init := xs[..|xs| - 1];
      var x := xs[|xs| - 1];
      var r := Dedup(init);
      assert xs == init + [x];
      if SetMember(x, r) then r
      else
        AppendKeepsMembers(init, r, x);
        r + [x]
  }

  /** Adding an element not yet in the set keeps it duplicate-free and loses no member. */
  lemma AppendKeepsMembers(xs: seq<Json>, r: seq<Json>, x: Json)
    requires Hashable(x) && forall i :: 0 <= i < |xs| ==> Hashable(xs[i])
    requires forall i :: 0 <= i < |r| ==> Hashable(r[i])
    requires SetDistinct(r) && !SetMember(x, r)
    requires forall i :: 0 <= i < |xs| ==> SetMember(xs[i], r)
    ensures SetDistinct(r + [x])
    ensures forall i :: 0 <= i < |xs + [x]| ==> SetMember((xs + [x])[i], r + [x])
  {
    var r' := r + [x];
    forall i | 0 <= i < |xs + [x]|
      ensures SetMember((xs + [x])[i], r')
    {
      if i < |xs| {
        var j :| 0 <= j < |r| && HashKey(r[j]) == HashKey(xs[i]);
        assert r'[j] == r[j];
      } else {
        assert r'[|r|] == x;
      }
    }
  }

  /** With no booleans around, the deduplicated list has exactly the elements of the input. */
  lemma DedupSameElements(xs: seq<Json>)
    requires forall i :: 0 <= i < |xs| ==> Hashable(xs[i]) && !xs[i].Bool?
    ensures forall x :: x in Dedup(xs) <==> x in xs
    ensures forall i, j :: 0 <= i < j < |Dedup(xs)| ==> Dedup(xs)[i] != Dedup(xs)[j]
  {
  }

  /** `x` is set-equal to a member of `list(set(xs))` exactly when it is set-equal to a member of `xs`. */
  lemma DedupKeepsSetMembers(xs: seq<Json>, x: Json)
    requires forall i :: 0 <= i < |xs| ==> Hashable(xs[i])
    requires Hashable(x)
    ensures SetMember(x, Dedup(xs)) <==> SetMember(x, xs)
  {
    SameSetMembers(xs, Dedup(xs), x);
  }

  /** A list drawn from `xs` that represents every element of `xs` has the same set members. */
  lemma SameSetMembers(xs: seq<Json>, r: seq<Json>, x: Json)
    requires forall i :: 0 <= i < |xs| ==> Hashable(xs[i])
    requires forall i :: 0 <= i < |r| ==> Hashable(r[i])
    requires forall i :: 0 <= i < |r| ==> r[i] in xs
    requires forall i :: 0 <= i < |xs| ==> SetMember(xs[i], r)
    requires Hashable(x)
    ensures SetMember(x, r) <==> SetMember(x, xs)
  {
    if SetMember(x, r) {
      DrawnMemberIsMember(xs, r, x);
    }
    if SetMember(x, xs) {
      var j :| 0 <= j < |xs| && HashKey(xs[j]) == HashKey(x);
      RepresentedMemberIsMember(r, xs[j], x);
    }
  }

  lemma DrawnMemberIsMember(xs: seq<Json>, r: seq<Json>, x: Json)
    requires forall i :: 0 <= i < |xs| ==> Hashable(xs[i])
    requires forall i :: 0 <= i < |r| ==> Hashable(r[i])
    requires forall i :: 0 <= i < |r| ==> r[i] in xs
    requires Hashable(x) && SetMember(x, r)
    ensures SetMember(x, xs)
  {
    var k :| 0 <= k < |r| && HashKey(r[k]) == HashKey(x);
    var j :| 0 <= j < |xs| && xs[j] == r[k];
  }

  lemma RepresentedMemberIsMember(r: seq<Json>, y: Json, x: Json)
    requires forall i :: 0 <= i < |r| ==> Hashable(r[i])
    requires Hashable(y) && Hashable(x) && HashKey(y) == HashKey(x)
    requires SetMember(y, r)
    ensures SetMember(x, r)
  {
    var k :| 0 <= k < |r| && HashKey(r[k]) == HashKey(y);
  }

  /** The first list or dict in `xs`, the element that makes `set(xs)` raise. */
  function FirstUnhashable(xs: seq<Json>): (r: Option<Json>)
    ensures r.None? <==> forall i :: 0 <= i < |xs| ==> Hashable(xs[i])
    ensures r.Some? ==> r.value in xs && !Hashable(r.value)
    decreases |xs|
  {
    if xs == [] then None
    else if !Hashable(xs[0]) then Some(xs[0])
    else
      var r := FirstUnhashable(xs[1..]);
      assert forall i :: 1 <= i < |xs| ==> xs[i] == xs[1..][i - 1];
      r
  }

  /**
   `list(set(result["videos"] or []))`, where the projection yields null or a
   list; a list or dict among the URLs makes `set` raise TypeError.
   */
  function VideoList(projected: Json): (r: Result<seq<Json>, Error>)
    ensures r.Failure? ==> r.error.Unhashable?
    ensures r.Success? ==> (forall i :: 0 <= i < |r.value| ==> Hashable(r.value[i]))
                           && SetDistinct(r.value)
  {
    var xs := match projected case Arr(items) => items case _ => [];
    match FirstUnhashable(xs)
    case Some(bad) => Failure(Unhashable(bad))
    case None => Success(Dedup(xs))
  }

  /**
   The reply-count coercion: a truthy value whose type is not exactly int
   goes through `int(value.split(" ")[0])`.
   */
  function CoerceReplyCount(v: Json): (r: Result<Json, Error>)
    ensures !Truthy(v) || v.Int? ==> r == Success(v)
    ensures r.Success? ==> r.value.Int? || !Truthy(r.value)
    ensures v.Str? && Truthy(v) && r.Success? ==>
              var token := PrefixBefore(v.s, ' ');
              token != [] && AllDigits(token) && r.value == Int(DigitsValue(token))
    ensures r.Failure? <==> Truthy(v) && !v.Int? && (v.Str? ==> ParseNat(PrefixBefore(v.s, ' ')).None?)
  {
    if !Truthy(v) || v.Int? then Success(v)
    else match v
      case Str(s) =>
        var token := PrefixBefore(s, ' ');
        (match ParseNat(token)
         case Some(n) => Success(Int(n))
         case None => Failure(NotAnInteger(token)))
      case _ => Failure(NoSplit(v))
  }

  /** A count rendered as "<n> <anything>" (such as "12 replies") is read back as n. */
  lemma ReplyCountReadsLeadingNumber(n: nat, rest: string)
    ensures CoerceReplyCount(Str(NatToDecimal(n) + " " + rest)) == Success(Int(n))
  {
    var s := NatToDecimal(n) + " " + rest;
    PrefixBeforeUnique(s, ' ', NatToDecimal(n));
    DecimalRoundTrip(n);
  }

  const UrlPrefix: string := "https://www.threads.net/@"
  const PostSegment: string := "/post/"

  /**
   `f"https://www.threads.net/@{username}/post/{code}"`. The URL identifies
   the post: when the rendered username has no '/', both rendered fields are
   recovered from it; absent fields render as "None".
   */
  function ThreadUrl(username: Json, code: Json): (r: string)
    ensures UrlPrefix <= r
    ensures '/' !in PyStr(username) ==> ParseThreadUrl(r) == Some((PyStr(username), PyStr(code)))
  {
    if '/' !in PyStr(username) then
      SplitUrlRoundTrip(UrlPrefix, PyStr(username), PostSegment, PyStr(code));
      ThreadUrlOf(PyStr(username), PyStr(code))
    else ThreadUrlOf(PyStr(username), PyStr(code))
  }

  /**
   Reads `prefix + user + mid + rest` back into `(user, rest)`, where `user`
   runs up to the first '/'; None when `url` does not have that shape.
   */
  function SplitUrl(url: string, prefix: string, mid: string): (r: Option<(string, string)>)
    ensures r.Some? ==> prefix + r.value.0 + mid + r.value.1 == url
  {
    if !(prefix <= url) then None
    else
      var rest := url[|prefix|..];
      var user := PrefixBefore(rest, '/');
      var after := rest[|user|..];
      if mid <= after then
        SplitPieces(url, prefix, user, mid);
        Some((user, after[|mid|..]))
      else None
  }

  lemma SplitPieces(url: string, prefix: string, user: string, mid: string)
    requires prefix <= url && user <= url[|prefix|..] && mid <= url[|prefix|..][|user|..]
    ensures prefix + user + mid + url[|prefix|..][|user|..][|mid|..] == url
  {
  }

  lemma SplitUrlRoundTrip(prefix: string, user: string, mid: string, rest: string)
    requires '/' !in user && mid != [] && mid[0] == '/'
    ensures SplitUrl(prefix + user + mid + rest, prefix, mid) == Some((user, rest))
  {
    var url := prefix + user + mid + rest;
    assert url[|prefix|..] == user + mid + rest;
    var tail := user + mid + rest;
    assert tail[|user|] == '/';
    PrefixBeforeUnique(tail, '/', user);
    assert tail[|user|..] == mid + rest;
  }

  /** Splits a post URL back into its username and code; None when it is not one. */
  function ParseThreadUrl(url: string): (r: Option<(string, string)>)
    ensures r.Some? ==> ThreadUrlOf(r.value.0, r.value.1) == url
  {
    SplitUrl(url, UrlPrefix, PostSegment)
  }

  function ThreadUrlOf(username: string, code: string): string {
    UrlPrefix + username + PostSegment + code
  }

  /**
   parse_thread on one payload: the multiselect hash (None for a null
   payload), then the videos dedup, the reply-count coercion and the url.
   */
  function ParseThread(data: Json): (r: Result<Thread, Error>)
    ensures r.Failure? ==> RecordError(r.error)
    ensures data == Null ==> r == Failure(NullPayload)
  {
    if data == Null then Failure(NullPayload)
    else
      var videos :- VideoList(Project(VideoVersionsPath, VideoUrlPath, data));
      var replyCount :- CoerceReplyCount(Eval(ReplyCountPath, data));
      Success(Assemble(data, videos, replyCount))
  }

  /** The record for a payload, given its post-processed videos and reply count. */
  function Assemble(data: Json, videos: seq<Json>, replyCount: Json): Thread {
    var username := Eval(UsernamePath, data);
    var code := Eval(CodePath, data);
    Thread(
      text := Eval(TextPath, data),
      publishedOn := Eval(PublishedOnPath, data),
      id := Eval(IdPath, data),
      pk := Eval(PkPath, data),
      code := code,
      username := username,
      userPic := Eval(UserPicPath, data),
      userVerified := Eval(UserVerifiedPath, data),
      userPk := Eval(UserPkPath, data),
      userId := Eval(UserIdPath, data),
      hasAudio := Eval(HasAudioPath, data),
      replyCount := replyCount,
      likeCount := Eval(LikeCountPath, data),
      images := Project(CarouselPath, ImageUrlPath, data),
      imageCount := Eval(ImageCountPath, data),
      videos := videos,
      url := ThreadUrl(username, code))
  }

  /**
   parse_thread succeeds on exactly the non-null payloads whose videos
   dedup and reply-count coercion succeed. The row of the record then holds
   every plain column of the query with the value at that column's path
   (null where a step is missing), `images` and `videos` from the two
   projections, the coerced reply count, and `url` rendered from the values
   at the username and code paths. The row's keys are distinct
   (FieldNamesDistinct), so each of these is the column's only value.
   */
  lemma ColumnsFollowQuery(data: Json)
    ensures ParseThread(data).Success? <==>
              && data != Null
              && VideoList(Project(VideoVersionsPath, VideoUrlPath, data)).Success?
              && CoerceReplyCount(Eval(ReplyCountPath, data)).Success?
    ensures ParseThread(data).Success? ==>
            var row := Row(ParseThread(data).value);
              && (forall e | e in ScalarQuery :: (e.0, Eval(e.1, data)) in row)
              && ("images", Project(CarouselPath, ImageUrlPath, data)) in row
              && ("videos", Arr(VideoList(Project(VideoVersionsPath, VideoUrlPath, data)).value)) in row
              && ("reply_count", CoerceReplyCount(Eval(ReplyCountPath, data)).value) in row
              && ("url", Str(ThreadUrl(Eval(UsernamePath, data), Eval(CodePath, data)))) in row
  {
    if ParseThread(data).Success? {
      var videos := VideoList(Project(VideoVersionsPath, VideoUrlPath, data)).value;
      var replyCount := CoerceReplyCount(Eval(ReplyCountPath, data)).value;
      assert ParseThread(data).value == Assemble(data, videos, replyCount);
      AssembledColumns(data, videos, replyCount);
    }
  }

  /** The row of the record assembled from a payload and its post-processed videos and reply count. */
  lemma AssembledColumns(data: Json, videos: seq<Json>, replyCount: Json)
    ensures var row := Row(Assemble(data, videos, replyCount));
              && (forall e | e in ScalarQuery :: (e.0, Eval(e.1, data)) in row)
              && ("images", Project(CarouselPath, ImageUrlPath, data)) in row
              && ("videos", Arr(videos)) in row
              && ("reply_count", replyCount) in row
              && ("url", Str(ThreadUrl(Eval(UsernamePath, data), Eval(CodePath, data)))) in row
  {
    var t := Assemble(data, videos, replyCount);
    assert PlainFieldsFrom(t, data);
    forall e | e in ScalarQuery
      ensures (e.0, Eval(e.1, data)) in Row(t)
    {
      var k :| 0 <= k < |ScalarQuery| && ScalarQuery[k] == e;
      PlainColumnInRow(t, data, k);
    }
  }

  /** The record's plain fields hold the values at the query's paths in `data`. */
  ghost predicate PlainFieldsFrom(t: Thread, data: Json) {
    && t.text == Eval(TextPath, data) && t.publishedOn == Eval(PublishedOnPath, data)
    && t.id == Eval(IdPath, data) && t.pk == Eval(PkPath, data)
    && t.code == Eval(CodePath, data) && t.username == Eval(UsernamePath, data)
    && t.userPic == Eval(UserPicPath, data) && t.userVerified == Eval(UserVerifiedPath, data)
    && t.userPk == Eval(UserPkPath, data) && t.userId == Eval(UserIdPath, data)
    && t.hasAudio == Eval(HasAudioPath, data) && t.likeCount == Eval(LikeCountPath, data)
    && t.imageCount == Eval(ImageCountPath, data)
  }

  /** The values at the query's plain paths in `data`, in the query's order. */
  ghost function PlainValues(data: Json): (vals: seq<Json>)
    ensures |vals| == |ScalarQuery|
  {
    seq(|ScalarQuery|, k requires 0 <= k < |ScalarQuery| => Eval(ScalarQuery[k].1, data))
  }

  /** The record's plain fields, in the query's order, are `vals`. */
  ghost predicate PlainFieldsAre(t: Thread, vals: seq<Json>)
    requires |vals| == |ScalarQuery|
  {
    && t.text == vals[0] && t.publishedOn == vals[1] && t.id == vals[2] && t.pk == vals[3]
    && t.code == vals[4] && t.username == vals[5] && t.userPic == vals[6]
    && t.userVerified == vals[7] && t.userPk == vals[8] && t.userId == vals[9]
    && t.hasAudio == vals[10] && t.likeCount == vals[11] && t.imageCount == vals[12]
  }

  /** The values at the query's paths are the record's fields, taken four or five at a time. */
  lemma PlainValuesInOrder(t: Thread, data: Json)
    requires PlainFieldsFrom(t, data)
    ensures PlainFieldsAre(t, PlainValues(data))
  {
    var vals := PlainValues(data);
    assert t.text == vals[0] && t.publishedOn == vals[1] && t.id == vals[2] && t.pk == vals[3] by {
      FieldValuesAt(data, 0, 4);
    }
    assert t.code == vals[4] && t.username == vals[5] && t.userPic == vals[6] && t.userVerified == vals[7] by {
      FieldValuesAt(data, 4, 8);
    }
    assert t.userPk == vals[8] && t.userId == vals[9] && t.hasAudio == vals[10]
           && t.likeCount == vals[11] && t.imageCount == vals[12] by {
      FieldValuesAt(data, 8, 13);
    }
  }

  /** Positions `lo` up to `hi` of the plain values are the values at the query's paths there. */
  lemma FieldValuesAt(data: Json, lo: nat, hi: nat)
    requires lo <= hi <= |ScalarQuery|
    ensures forall k :: lo <= k < hi ==> PlainValues(data)[k] == Eval(ScalarQuery[k].1, data)
  {
  }

  /**
   The query's `k`-th plain column sits in the row at position `k` for the
   eleven columns up to has_audio, and one and two places later for
   like_count and image_count (after reply_count and images).
   */
  lemma PlainColumnInRow(t: Thread, data: Json, k: nat)
    requires PlainFieldsFrom(t, data) && k < |ScalarQuery|
    ensures (ScalarQuery[k].0, Eval(ScalarQuery[k].1, data)) in Row(t)
  {
    var vals := PlainValues(data);
    PlainValuesInOrder(t, data);
    if k < 6 {
      LeadingColumnInRow(t, vals, k);
    } else if k < 11 {
      MiddleColumnInRow(t, vals, k);
    } else {
      ShiftedColumnInRow(t, vals, k);
    }
  }

  lemma LeadingColumnInRow(t: Thread, vals: seq<Json>, k: nat)
    requires |vals| == |ScalarQuery| && PlainFieldsAre(t, vals) && k < 6
    ensures (ScalarQuery[k].0, vals[k]) in Row(t)
  {
    var row := Row(t);
    assert ScalarQuery[k].0 == row[k].0 && row[k].1 == vals[k];
    assert row[k] in row;
  }

  lemma MiddleColumnInRow(t: Thread, vals: seq<Json>, k: nat)
    requires |vals| == |ScalarQuery| && PlainFieldsAre(t, vals) && 6 <= k < 11
    ensures (ScalarQuery[k].0, vals[k]) in Row(t)
  {
    var row := Row(t);
    assert ScalarQuery[k].0 == row[k].0 && row[k].1 == vals[k];
    assert row[k] in row;
  }

  lemma ShiftedColumnInRow(t: Thread, vals: seq<Json>, k: nat)
    requires |vals| == |ScalarQuery| && PlainFieldsAre(t, vals) && 11 <= k < |ScalarQuery|
    ensures (ScalarQuery[k].0, vals[k]) in Row(t)
  {
    var row := Row(t);
    var i := if k == 11 then 12 else 14;
    assert ScalarQuery[k].0 == row[i].0 && row[i].1 == vals[k];
    assert row[i] in row;
  }

  /** The column names are pairwise distinct, as the keys of a dict literal are. */
  lemma FieldNamesDistinct()
    ensures forall i, j :: 0 <= j < i < |FieldNames| ==> FieldNames[j] != FieldNames[i]
  {
  }

  /**
   The videos are the distinct non-null `url`s of the flattened
   `post.video_versions`, up to set equality; none when that list is absent
   or null. When no url is a boolean (which a set merges with 1 or 0), they
   are exactly those urls.
   */
  lemma VideosAreTheVersionUrls(data: Json, x: Json)
    requires VideoList(Project(VideoVersionsPath, VideoUrlPath, data)).Success?
    ensures var videos := VideoList(Project(VideoVersionsPath, VideoUrlPath, data)).value;
            && (forall i :: 0 <= i < |videos| ==> Hashable(videos[i]))
            && SetDistinct(videos)
            && (!Eval(VideoVersionsPath, data).Arr? ==> videos == [])
    ensures var versions := Eval(VideoVersionsPath, data);
            var videos := VideoList(Project(VideoVersionsPath, VideoUrlPath, data)).value;
            versions.Arr? ==>
              var urls := Collect(VideoUrlPath, Flatten(versions.items));
              && (x in urls <==> x != Null && ProjectsTo(VideoUrlPath, Flatten(versions.items), x))
              && (forall i :: 0 <= i < |urls| ==> Hashable(urls[i]))
              && (Hashable(x) ==> (SetMember(x, videos) <==> SetMember(x, urls)))
              && ((forall i :: 0 <= i < |urls| ==> !urls[i].Bool?) ==> (x in videos <==> x in urls))
  {
    var versions := Eval(VideoVersionsPath, data);
    if versions.Arr? {
      var urls := Collect(VideoUrlPath, Flatten(versions.items));
      assert Project(VideoVersionsPath, VideoUrlPath, data) == Arr(urls);
      CollectMembers(VideoUrlPath, Flatten(versions.items), x);
      if Hashable(x) {
        DedupKeepsSetMembers(urls, x);
      }
      if forall i :: 0 <= i < |urls| ==> !urls[i].Bool? {
        DedupSameElements(urls);
      }
    }
  }

  /**
   `images` has one entry per carousel item, that item's second candidate
   URL, when every item has one (and no item is itself a list).
   */
  lemma ImagesOnePerCarouselItem(data: Json, items: seq<Json>)
    requires Eval(CarouselPath, data) == Arr(items)
    requires forall i :: 0 <= i < |items| ==> !items[i].Arr?
    requires forall i :: 0 <= i < |items| ==> Eval(ImageUrlPath, items[i]) != Null
    ensures var images := Project(CarouselPath, ImageUrlPath, data);
            && images.Arr? && |images.items| == |items|
            && forall i :: 0 <= i < |items| ==> images.items[i] == Eval(ImageUrlPath, items[i])
  {
    CollectTotal(ImageUrlPath, items);
  }

  /** A carousel item with fewer than two candidates yields null, which the projection drops. */
  lemma ItemWithoutSecondCandidateIsDropped(item: Json)
    requires var candidates := Eval([Key("image_versions2"), Key("candidates")], item);
             !(candidates.Arr? && |candidates.items| >= 2)
    ensures Eval(ImageUrlPath, item) == Null
  {
  }

  /** After normalisation the reply count is an int or a falsy value, never a non-empty string. */
  lemma ReplyCountIsIntOrFalsy(data: Json)
    requires ParseThread(data).Success?
    ensures var c := ParseThread(data).value.replyCount;
            c.Int? || !Truthy(c)
    ensures var raw := Eval(ReplyCountPath, data);
            raw.Int? || !Truthy(raw) ==> ParseThread(data).value.replyCount == raw
  {
  }
}
