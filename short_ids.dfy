/** The short identifier and the short URL built from it: the 62-symbol
    alphabet and length given to the id generator, the `PORT` fallback and
    the `http://localhost:<PORT>/<id>` template. */
module ShortIds {
  import opened Wrappers

  /** The alphabet handed to the id generator, in the order it is written
      (digits from 1 to 0, then lower case, then upper case). */
  const Alphabet: string := "1234567890" + "abcdefghijklmnopqrstuvwxyz" + "ABCDEFGHIJKLMNOPQRSTUVWXYZ"

  /** Every generated id has exactly this many characters. */
  const IdLength: nat := 8

  /** The port used when `PORT` is unset or empty. */
  const DefaultPort: string := "3000"

  /** The character class `[0-9a-zA-Z]`. */
  predicate IsAlphanumeric(c: char)
  {
    ('0' <= c <= '9') || ('a' <= c <= 'z') || ('A' <= c <= 'Z')
  }

  /** The shape of every id the generator can return: eight symbols of the
      alphabet. */
  predicate ValidId(id: string)
    ensures ValidId(id) ==> |id| == 8 && '/' !in id
  {
    |id| == IdLength && forall i :: 0 <= i < |id| ==> id[i] in Alphabet
  }

  /** The alphabet has 62 symbols and they are exactly `[0-9a-zA-Z]`. */
  lemma AlphabetIsAlphanumeric()
    ensures |Alphabet| == 62
    ensures forall c :: c in Alphabet <==> IsAlphanumeric(c)
  {
  }

  /** An id has the generator's shape exactly when it is eight characters
      of `[0-9a-zA-Z]`. */
  lemma ValidIdIsAlphanumeric(id: string)
    ensures ValidId(id) <==> |id| == IdLength && forall i :: 0 <= i < |id| ==> IsAlphanumeric(id[i])
  {
    AlphabetIsAlphanumeric();
  }

  /** The port the service advertises: the `PORT` environment variable when
      it is set to a non-empty string, and 3000 otherwise (`PORT || 3000`). */
  function Port(env: Option<string>): (port: string)
    ensures port != ""
    ensures port == DefaultPort || env == Some(port)
    ensures env.Some? && env.value != "" ==> port == env.value
  {
    if env.Some? && env.value != "" then env.value else DefaultPort
  }

  /** The part of `s` after its last `/` (all of `s` when it has none): the
      trailing path segment of a URL. */
  function LastSegment(s: string): string
  {
    if s == [] || s[|s| - 1] == '/' then [] else LastSegment(s[..|s| - 1]) + [s[|s| - 1]]
  }

  /** Appending a slash-free segment to a prefix that ends in `/` makes that
      segment the trailing one. */
  lemma {:induction false} LastSegmentAfterSlash(prefix: string, segment: string)
    requires prefix != [] && prefix[|prefix| - 1] == '/'
    requires '/' !in segment
    ensures LastSegment(prefix + segment) == segment
  {
    if segment == [] {
      assert prefix + segment == prefix;
    } else {
      var n := |segment| - 1;
      var s := prefix + segment;
      assert s[..|s| - 1] == prefix + segment[..n];
      assert s[|s| - 1] == segment[n];
      LastSegmentAfterSlash(prefix, segment[..n]);
      assert segment[..n] + [segment[n]] == segment;
    }
  }

  /** The short URL returned for `id`: it starts with the service's own
      `http://localhost:<port>/` base and its trailing path segment is the id. */
  function ShortUrl(port: string, id: string): (url: string)
    requires ValidId(id)
    ensures |url| == |"http://localhost:"| + |port| + 1 + IdLength
    ensures url[..|"http://localhost:"|] == "http://localhost:"
    ensures url[|url| - IdLength - 1] == '/'
    ensures LastSegment(url) == id
  {
    var base := "http://localhost:" + port + "/";
    LastSegmentAfterSlash(base, id);
    assert (base + id)[..|"http://localhost:"|] == "http://localhost:";
    base + id
  }
}
