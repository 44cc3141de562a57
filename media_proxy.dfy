/**
 * The media proxy, `copy_and_generate_urls`: each media object is fetched
 * from its source URL, stored in the messages bucket under its id and
 * presigned; the URLs of the objects that made it through, in input order,
 * are the result. What the network and the object store answer for the
 * object at position k is the oracle value `answers(k)`; whether creating
 * the S3 client raises is the oracle value `clientRaises`.
 */
module MediaProxy {
  import opened Wrappers
  import opened Json

  /**
   * The outside world's answers for one media object: did `requests.get`
   * return, did the S3 `put` return, and the URL `generate_presigned_url`
   * returned (None when it raised).
   */
  datatype StorageAnswer = StorageAnswer(fetched: bool, stored: bool, presigned: Option<string>)

  /** `media_object["attributes"][name]`. */
  function Attribute(item: Json, name: string): Option<Json> {
    match Field(item, "attributes")
    case None => None
    case Some(a) => Field(a, name)
  }

  /** The lookups a media object must survive: its id, its source URL and its content type. */
  predicate IsMediaObject(item: Json) {
    Field(item, "id").Some? && Attribute(item, "url").Some? && Attribute(item, "mime_type").Some?
  }

  /**
   * One pass of the loop body, in the order Python evaluates it: the id, the
   * source URL, the fetch, the content type, the put, the presign. Any
   * exception skips the object (None).
   */
  function ProxyOne(item: Json, answer: StorageAnswer): (url: Option<string>)
    ensures url.Some? <==> IsMediaObject(item) && answer.fetched && answer.stored && answer.presigned.Some?
    ensures url.Some? ==> url == answer.presigned
  {
    if Field(item, "id").None? then None
    else if Attribute(item, "url").None? then None
    else if !answer.fetched then None
    else if Attribute(item, "mime_type").None? then None
    else if !answer.stored then None
    else answer.presigned
  }

  /** The outcome of the loop body for every object, position by position. */
  function Attempts(items: seq<Json>, answers: nat -> StorageAnswer): (r: seq<Option<string>>)
    ensures |r| == |items|
    ensures forall k :: 0 <= k < |items| ==> r[k] == ProxyOne(items[k], answers(k))
  {
    seq(|items|, k requires 0 <= k < |items| => ProxyOne(items[k], answers(k)))
  }

  /** One more object adds one more attempt at the end. */
  lemma AttemptsExtend(items: seq<Json>, answers: nat -> StorageAnswer, i: nat)
    requires i < |items|
    ensures Attempts(items[..i + 1], answers) == Attempts(items[..i], answers) + [ProxyOne(items[i], answers(i))]
  {
    assert items[..i + 1][..i] == items[..i];
  }

  /** The values of the successful attempts, in order. */
  function Somes(s: seq<Option<string>>): (r: seq<string>)
    ensures |r| <= |s|
    ensures |r| == |s| <==> forall k :: 0 <= k < |s| ==> s[k].Some?
  {
    if s == [] then []
    else
      var last := s[|s| - 1];
      Somes(s[..|s| - 1]) + (if last.Some? then [last.value] else [])
  }

  /** The list `copy_and_generate_urls` returns. */
  function Proxied(items: seq<Json>, answers: nat -> StorageAnswer): seq<string> {
    Somes(Attempts(items, answers))
  }

  /** The positions of the successful attempts, ascending. */
  function Successes(s: seq<Option<string>>): seq<nat> {
    if s == [] then []
    else Successes(s[..|s| - 1]) + (if s[|s| - 1].Some? then [|s| - 1] else [])
  }

  /**
   * `Somes` keeps exactly the successful entries, in order: its j-th value is
   * the value at the j-th successful position, the positions ascend, and a
   * position is listed iff its attempt succeeded.
   */
  lemma {:induction false} SomesAreTheSuccesses(s: seq<Option<string>>)
    ensures |Somes(s)| == |Successes(s)|
    ensures forall j :: 0 <= j < |Successes(s)| ==> Successes(s)[j] < |s| && s[Successes(s)[j]] == Some(Somes(s)[j])
    ensures forall i, j :: 0 <= i < j < |Successes(s)| ==> Successes(s)[i] < Successes(s)[j]
    ensures forall k :: 0 <= k < |s| ==> (s[k].Some? <==> k in Successes(s))
  {
    if s != [] {
      var init := s[..|s| - 1];
      SomesAreTheSuccesses(init);
      assert forall k :: 0 <= k < |init| ==> init[k] == s[k];
    }
  }

  /** Splitting the attempts splits the result. */
  lemma {:induction false} SomesAppend(a: seq<Option<string>>, b: seq<Option<string>>)
    ensures Somes(a + b) == Somes(a) + Somes(b)
  {
    if b != [] {
      var init := b[..|b| - 1];
      assert (a + b)[..|a + b| - 1] == a + init;
      assert (a + b)[|a + b| - 1] == b[|b| - 1];
      SomesAppend(a, init);
    } else {
      assert a + b == a;
    }
  }

  /**
   * A failure on one object never affects the others: whatever the answers
   * for object k, the result is the URLs of the objects before it, then its
   * own URL if it succeeded, then the URLs of the objects after it, and those
   * two outer parts do not depend on the answer for k.
   */
  lemma OneObjectIsolated(items: seq<Json>, answers: nat -> StorageAnswer, answers': nat -> StorageAnswer, k: nat)
    requires k < |items|
    requires forall j :: 0 <= j < |items| && j != k ==> answers(j) == answers'(j)
    ensures Proxied(items, answers) ==
      Somes(Attempts(items, answers)[..k]) + Somes([ProxyOne(items[k], answers(k))]) + Somes(Attempts(items, answers)[k + 1..])
    ensures Proxied(items, answers') ==
      Somes(Attempts(items, answers)[..k]) + Somes([ProxyOne(items[k], answers'(k))]) + Somes(Attempts(items, answers)[k + 1..])
  {
    var s, s' := Attempts(items, answers), Attempts(items, answers');
    assert s[..k] == s'[..k];
    assert s[k + 1..] == s'[k + 1..];
    assert s == s[..k] + [s[k]] + s[k + 1..];
    assert s' == s'[..k] + [s'[k]] + s'[k + 1..];
    SomesAppend(s[..k] + [s[k]], s[k + 1..]);
    SomesAppend(s[..k], [s[k]]);
    SomesAppend(s'[..k] + [s'[k]], s'[k + 1..]);
    SomesAppend(s'[..k], [s'[k]]);
  }

  /**
   * What `for media_object in included` visits: a list's elements, a
   * string's characters. Iterating a dict gives its keys, all strings, and a
   * string is never a media object, so the model visits none of them (the
   * URL list is empty either way, `NonListIncludedProxiesNothing`). A
   * number, boolean or None is not iterable and raises (None).
   */
  function MediaObjects(included: Json): (r: Option<seq<Json>>)
    ensures r.Some? <==> included.JArray? || included.JString? || included.JObject?
    ensures included.JArray? ==> r == Some(included.items)
    ensures r.Some? && !included.JArray? ==> forall k :: 0 <= k < |r.value| ==> !IsMediaObject(r.value[k])
  {
    match included
    case JArray(items) => Some(items)
    case JString(s) => Some(seq(|s|, i requires 0 <= i < |s| => JString([s[i]])))
    case JObject(_) => Some([])
    case _ => None
  }

  /** When every attempt failed, nothing is kept. */
  lemma {:induction false} SomesOfFailures(s: seq<Option<string>>)
    requires forall k :: 0 <= k < |s| ==> s[k].None?
    ensures Somes(s) == []
  {
    if s != [] {
      SomesOfFailures(s[..|s| - 1]);
    }
  }

  /** Iterating a string or a dict as the media list proxies nothing: every element fails its lookups. */
  lemma NonListIncludedProxiesNothing(included: Json, answers: nat -> StorageAnswer)
    requires included.JString? || included.JObject?
    ensures Proxied(MediaObjects(included).value, answers) == []
  {
    SomesOfFailures(Attempts(MediaObjects(included).value, answers));
  }

  /**
   * `copy_and_generate_urls(included, config)`: the S3 client is created
   * first, then `included` is iterated, both outside the per-object `try`,
   * so either failing raises (None); otherwise the loop appends one URL per
   * object that made it through.
   */
  method CopyAndGenerateUrls(included: Json, clientRaises: bool, answers: nat -> StorageAnswer)
    returns (urls: Option<seq<string>>)
    ensures urls.None? <==> clientRaises || MediaObjects(included).None?
    ensures urls.Some? ==> urls.value == Proxied(MediaObjects(included).value, answers)
  {
    if clientRaises {
      return None;
    }
    var objects := MediaObjects(included);
    if objects.None? {
      return None;
    }
    var items := objects.value;
    var list := [];
    for i := 0 to |items|
      invariant list == Somes(Attempts(items[..i], answers))
    {
      var url := ProxyOne(items[i], answers(i));
      AttemptsExtend(items, answers, i);
      if url.Some? {
        list := list + [url.value];
      }
    }
    assert items[..|items|] == items;
    urls := Some(list);
  }
}
