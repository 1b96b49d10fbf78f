/** The embedding generator: the sentence-embedding model as an opaque
    function from text to vector, and the pass that gives every ad dict an
    `embedding` entry computed from its tagline and text. */
module Embeddings {
  import opened Wrappers
  import opened PyValues

  const EmbeddingKey := "embedding"

  predicate HasTextFields(m: Record)
  {
    "tagline" in m && "text" in m
  }

  /** The text an ad is embedded from: its tagline, a space, its body text. */
  function CombinedText(m: Record): string
    requires HasTextFields(m)
  {
    PyStr(m["tagline"]) + " " + PyStr(m["text"])
  }

  /** The ad with its `embedding` entry set; every other entry is kept. */
  function WithEmbedding(m: Record, encode: string -> Vector): (e: Record)
    requires HasTextFields(m)
    ensures e.Keys == m.Keys + {EmbeddingKey}
    ensures forall key :: key in m && key != EmbeddingKey ==> e[key] == m[key]
    ensures e[EmbeddingKey] == Vec(encode(PyStr(m["tagline"]) + " " + PyStr(m["text"])))
  {
    m[EmbeddingKey := Vec(encode(CombinedText(m)))]
  }

  /** Embedding an ad a second time changes nothing: its tagline and text,
      and so its embedding, are what they were. */
  lemma WithEmbeddingIdempotent(m: Record, encode: string -> Vector)
    requires HasTextFields(m)
    ensures HasTextFields(WithEmbedding(m, encode))
    ensures WithEmbedding(WithEmbedding(m, encode), encode) == WithEmbedding(m, encode)
  {
    var e := WithEmbedding(m, encode);
    assert CombinedText(e) == CombinedText(m);
  }

  /** The KeyError raised for an ad that lacks its tagline (looked up
      first) or its text. */
  function MissingFieldError(m: Record): PyException
    requires !HasTextFields(m)
  {
    var missing := if "tagline" !in m then "tagline" else "text";
    KeyError("Missing required field in ad: " + KeyErrorText(missing) +
             ". Each ad must contain 'tagline' and 'text' fields.")
  }

  /** What `prepare_ad_embeddings` computes, on values: the embedded ads in
      input order, or the error for the first ad lacking a field. */
  function EmbedAll(ms: seq<Record>, encode: string -> Vector): Result<seq<Record>, PyException>
  {
    var i := FirstFailing(ms, HasTextFields);
    if i < |ms| then Failure(MissingFieldError(ms[i]))
    else Success(seq(|ms|, k requires 0 <= k < |ms| && HasTextFields(ms[k]) => WithEmbedding(ms[k], encode)))
  }

  /** Preparation succeeds exactly when every ad has a tagline and a text;
      it then keeps length and order, and the k-th ad gains the embedding of
      its own combined text and keeps all its other entries. */
  lemma EmbedAllSucceedsIff(ms: seq<Record>, encode: string -> Vector)
    ensures EmbedAll(ms, encode).Success? <==> forall k :: 0 <= k < |ms| ==> HasTextFields(ms[k])
    ensures EmbedAll(ms, encode).Success? ==>
              var out := EmbedAll(ms, encode).value;
              |out| == |ms| &&
              forall k :: 0 <= k < |ms| ==>
                out[k][EmbeddingKey] == Vec(encode(CombinedText(ms[k]))) &&
                out[k] - {EmbeddingKey} == ms[k] - {EmbeddingKey}
  {
    var i := FirstFailing(ms, HasTextFields);
    if i < |ms| {
      assert !HasTextFields(ms[i]);
    } else {
      var out := EmbedAll(ms, encode).value;
      forall k | 0 <= k < |ms|
        ensures out[k] - {EmbeddingKey} == ms[k] - {EmbeddingKey}
      {
        assert out[k] == WithEmbedding(ms[k], encode);
      }
    }
  }

  /** Dicts at positions `j` and `k` of `ads` that are one object held
      the same contents in `before`. */
  ghost predicate AliasConsistent(ads: seq<Dict>, before: seq<Record>)
    requires |before| == |ads|
  {
    forall j, k :: 0 <= j < |ads| && 0 <= k < |ads| && ads[j] == ads[k] ==> before[j] == before[k]
  }

  /** `now` holds the list's contents once the first `i` ads have been
      embedded: each of them (and every alias of it further on) holds its
      embedded contents, and every other ad holds its contents from `before`. */
  ghost predicate EmbeddedUpTo(ads: seq<Dict>, now: seq<Record>, before: seq<Record>, i: nat, encode: string -> Vector)
    requires |now| == |ads| && |before| == |ads| && i <= |ads|
    requires forall j :: 0 <= j < i ==> HasTextFields(before[j])
  {
    && (forall j, k :: 0 <= j < i && 0 <= k < |ads| && ads[k] == ads[j] ==>
          now[k] == WithEmbedding(before[j], encode))
    && (forall k :: 0 <= k < |ads| && ads[k] !in ads[..i] ==> now[k] == before[k])
  }

  /** Embedding the i-th ad, and with it every alias of it, extends the
      embedded prefix by one. */
  lemma EmbeddedStep(ads: seq<Dict>, now: seq<Record>, next: seq<Record>, before: seq<Record>, i: nat,
                     encode: string -> Vector)
    requires |now| == |ads| && |next| == |ads| && |before| == |ads| && i < |ads|
    requires forall j :: 0 <= j <= i ==> HasTextFields(before[j])
    requires AliasConsistent(ads, before)
    requires EmbeddedUpTo(ads, now, before, i, encode)
    requires forall k :: 0 <= k < |ads| ==>
               next[k] == if ads[k] == ads[i] then WithEmbedding(before[i], encode) else now[k]
    ensures EmbeddedUpTo(ads, next, before, i + 1, encode)
  {
    assert ads[..i + 1] == ads[..i] + [ads[i]];
  }

  /** Once every ad is embedded the list holds exactly what EmbedAll gives. */
  lemma EmbeddedAll(ads: seq<Dict>, now: seq<Record>, before: seq<Record>, encode: string -> Vector)
    requires |now| == |ads| && |before| == |ads|
    requires forall j :: 0 <= j < |ads| ==> HasTextFields(before[j])
    requires EmbeddedUpTo(ads, now, before, |ads|, encode)
    ensures EmbedAll(before, encode) == Success(now)
  {
    assert FirstFailing(before, HasTextFields) == |before|;
    var out := EmbedAll(before, encode).value;
    forall k | 0 <= k < |ads|
      ensures out[k] == now[k]
    {
      assert out[k] == WithEmbedding(before[k], encode);
    }
    assert out == now;
  }

  /** Part way through, the next ad holds either its original contents or,
      when it aliases an ad already embedded, its embedded contents. */
  lemma NextAdContents(ads: seq<Dict>, now: seq<Record>, before: seq<Record>, i: nat, encode: string -> Vector)
    requires |now| == |ads| && |before| == |ads| && i < |ads|
    requires forall j :: 0 <= j < i ==> HasTextFields(before[j])
    requires AliasConsistent(ads, before)
    requires EmbeddedUpTo(ads, now, before, i, encode)
    ensures now[i] == before[i] || (HasTextFields(before[i]) && now[i] == WithEmbedding(before[i], encode))
  {
    if ads[i] in ads[..i] {
      var j :| 0 <= j < i && ads[..i][j] == ads[i];
      assert ads[j] == ads[i];
    }
  }

  /** The first ad lacking a field decides the error EmbedAll reports. */
  lemma EmbedAllFailsAt(ms: seq<Record>, i: nat, encode: string -> Vector)
    requires i < |ms| && !HasTextFields(ms[i])
    requires forall j :: 0 <= j < i ==> HasTextFields(ms[j])
    ensures FirstFailing(ms, HasTextFields) == i
    ensures EmbedAll(ms, encode) == Failure(MissingFieldError(ms[i]))
  {
  }

  /** The sentence-transformer the generator loads unless told otherwise. */
  const DefaultModelName := "all-MiniLM-L6-v2"

  class EmbeddingGenerator {
    const modelName: string
    /** The model's encoder: the vector it gives for a text. */
    const encode: string -> Vector

    constructor (encode: string -> Vector, modelName: string := DefaultModelName)
      ensures this.modelName == modelName && this.encode == encode
    {
      this.modelName := modelName;
      this.encode := encode;
    }

    /** The model's encoding of exactly the given text. */
    method GenerateEmbedding(text: string) returns (v: Vector)
      ensures v == encode(text)
    {
      v := encode(text);
    }

    /** Adds an `embedding` entry to each ad dict in place and returns the
        same dicts in order. On an ad lacking its tagline or text it raises
        KeyError, after the ads before it have been updated. */
    method PrepareAdEmbeddings(ads: seq<Dict>) returns (r: Result<seq<Dict>, PyException>)
      modifies ads
      ensures var before := old(Entries(ads));
              match EmbedAll(before, encode)
              case Success(after) => r == Success(ads) && Entries(ads) == after
              case Failure(e) =>
                r == Failure(e) &&
                EmbeddedUpTo(ads, Entries(ads), before, FirstFailing(before, HasTextFields), encode)
    {
      ghost var before := Entries(ads);
      assert AliasConsistent(ads, before);
      var processed: seq<Dict> := [];
      var i := 0;
      while i < |ads|
        invariant 0 <= i <= |ads|
        invariant processed == ads[..i]
        invariant forall j :: 0 <= j < i ==> HasTextFields(before[j])
        invariant EmbeddedUpTo(ads, Entries(ads), before, i, encode)
      {
        var ad := ads[i];
        ghost var now := Entries(ads);
        NextAdContents(ads, now, before, i, encode);
        if !("tagline" in ad.entries && "text" in ad.entries) {
          EmbedAllFailsAt(before, i, encode);
          return Failure(MissingFieldError(ad.entries));
        }
        var combinedText := CombinedText(ad.entries);
        var embedding := GenerateEmbedding(combinedText);
        ad.entries := ad.entries[EmbeddingKey := Vec(embedding)];
        assert ad.entries == WithEmbedding(before[i], encode) by {
          WithEmbeddingIdempotent(before[i], encode);
        }
        EmbeddedStep(ads, now, Entries(ads), before, i, encode);
        processed := processed + [ad];
        i := i + 1;
      }
      EmbeddedAll(ads, Entries(ads), before, encode);
      assert ads[..i] == ads;
      r := Success(processed);
    }
  }
}
