/** `composeString`: the deep-link tail that follows a client's scheme, and a
    reader for its `&`-separated parameters that shows what the tail carries. */
module MailCompose {
  import opened Wrappers
  import opened Text
  import opened EmailClients

  /** `"&" + key + encoded value` when the value is set and the percent-encoder
      accepts it; nothing otherwise. */
  function Parameter(key: string, value: Option<string>, encode: string -> Option<string>): string {
    if value.Some? && encode(value.value).Some? then "&" + key + encode(value.value).value else ""
  }

  /** The tail for client `c` from the stored recipient, subject and body.
      `encode` stands for `addingPercentEncoding(withAllowedCharacters:
      .urlHostAllowed)`, which may fail. The recipient is appended as given,
      without encoding. */
  function ComposeString(c: EmailClient, mailto: Option<string>, subject: Option<string>,
                         body: Option<string>, encode: string -> Option<string>): (r: Option<string>)
    ensures r.None? <==> mailto.None?
    ensures r.Some? ==> StartsWith(r.value, Compose(c) + RecipientKey(c) + mailto.value)
  {
    match mailto
    case None => None
    case Some(m) =>
      var head := Compose(c) + RecipientKey(c) + m;
      var tail := Parameter(SubjectKey(c), subject, encode) + Parameter(BodyKey(c), body, encode);
      assert (head + tail)[..|head|] == head;
      Some(head + tail)
  }

  /** The tail as head, subject parameter and body parameter, grouped from the left. */
  lemma ComposeStringParts(c: EmailClient, mailto: string, subject: Option<string>,
                           body: Option<string>, encode: string -> Option<string>)
    ensures ComposeString(c, Some(mailto), subject, body, encode).value
         == Compose(c) + RecipientKey(c) + mailto + Parameter(SubjectKey(c), subject, encode)
            + Parameter(BodyKey(c), body, encode)
  {
    var head := Compose(c) + RecipientKey(c) + mailto;
    var sp, bp := Parameter(SubjectKey(c), subject, encode), Parameter(BodyKey(c), body, encode);
    assert head + (sp + bp) == head + sp + bp;
  }

  /** A value that is absent, that the encoder rejects, or whose encoding has
      no `&`: its parameter stays one piece when the tail is split at `&`. */
  predicate EncodesWithoutAmpersand(value: Option<string>, encode: string -> Option<string>) {
    value.Some? && encode(value.value).Some? ==> '&' !in encode(value.value).value
  }

  /** The piece a parameter contributes once the tail is split at `&`. */
  function ParameterPiece(key: string, value: Option<string>, encode: string -> Option<string>): (r: seq<string>)
    ensures |r| <= 1
    ensures Parameter(key, value, encode) == if r == [] then [] else "&" + r[0]
  {
    if value.Some? && encode(value.value).Some? then [key + encode(value.value).value] else []
  }

  /** The value of the first parameter after the head whose piece starts with `key`. */
  function QueryValue(tail: string, key: string): Option<string> {
    FirstWithKey(SplitOn(tail, '&')[1..], key)
  }

  function FirstWithKey(pieces: seq<string>, key: string): Option<string> {
    if pieces == [] then None
    else if StartsWith(pieces[0], key) then Some(pieces[0][|key|..])
    else FirstWithKey(pieces[1..], key)
  }

  /** Appending a parameter to a joined tail is joining one more piece. */
  lemma AppendParameter(parts: seq<string>, key: string, value: Option<string>,
                        encode: string -> Option<string>)
    requires |parts| >= 1
    ensures Join(parts, '&') + Parameter(key, value, encode)
         == Join(parts + ParameterPiece(key, value, encode), '&')
  {
    var pp := ParameterPiece(key, value, encode);
    if pp == [] {
      assert parts + pp == parts;
    } else {
      assert pp == [pp[0]];
      JoinOneMore(parts, pp[0], '&');
    }
  }

  /** The first piece starting with `key`, when one piece starts with `key`
      and the pieces before it start with the other key. */
  lemma FirstWithKeyOfPieces(ps: seq<string>, pb: seq<string>, key: string, v: string)
    requires |ps| <= 1 && (ps != [] ==> ps[0] == key + v)
    requires forall k | 0 <= k < |pb| :: !StartsWith(pb[k], key)
    ensures FirstWithKey(ps + pb, key) == (if ps == [] then None else Some(v))
    decreases |pb|
  {
    if ps == [] {
      assert ps + pb == pb;
      if pb != [] {
        assert !StartsWith(pb[0], key);
        FirstWithKeyOfPieces([], pb[1..], key, v);
        assert [] + pb[1..] == pb[1..];
      }
    } else {
      assert (ps + pb)[0] == key + v;
      assert (key + v)[..|key|] == key && (key + v)[|key|..] == v;
    }
  }

  /** When neither the recipient nor the encoded subject and body contain `&`, the tail
      splits into the head, then the subject parameter if it was appended,
      then the body parameter if it was appended: subject before body. */
  lemma ComposePieces(c: EmailClient, mailto: Option<string>, subject: Option<string>,
                      body: Option<string>, encode: string -> Option<string>)
    requires mailto.Some? && '&' !in mailto.value
    requires EncodesWithoutAmpersand(subject, encode) && EncodesWithoutAmpersand(body, encode)
    ensures SplitOn(ComposeString(c, mailto, subject, body, encode).value, '&')
         == [Compose(c) + RecipientKey(c) + mailto.value]
            + ParameterPiece(SubjectKey(c), subject, encode)
            + ParameterPiece(BodyKey(c), body, encode)
  {
    var head := Compose(c) + RecipientKey(c) + mailto.value;
    ComposeStringParts(c, mailto.value, subject, body, encode);
    TailPieces(head, SubjectKey(c), BodyKey(c), subject, body, encode);
  }

  /** `ComposePieces` for any head and keys free of `&`. */
  lemma TailPieces(head: string, sk: string, bk: string, subject: Option<string>,
                   body: Option<string>, encode: string -> Option<string>)
    requires '&' !in head && '&' !in sk && '&' !in bk
    requires EncodesWithoutAmpersand(subject, encode) && EncodesWithoutAmpersand(body, encode)
    ensures SplitOn(head + Parameter(sk, subject, encode) + Parameter(bk, body, encode), '&')
         == [head] + ParameterPiece(sk, subject, encode) + ParameterPiece(bk, body, encode)
  {
    var ps := ParameterPiece(sk, subject, encode);
    var pb := ParameterPiece(bk, body, encode);
    assert Join([head], '&') == head;
    AppendParameter([head], sk, subject, encode);
    AppendParameter([head] + ps, bk, body, encode);
    PiecesFreeOf(head, ps, pb);
    SplitJoin([head] + ps + pb, '&');
  }

  lemma PiecesFreeOf(head: string, ps: seq<string>, pb: seq<string>)
    requires '&' !in head
    requires forall k | 0 <= k < |ps| :: '&' !in ps[k]
    requires forall k | 0 <= k < |pb| :: '&' !in pb[k]
    ensures forall k | 0 <= k < |[head] + ps + pb| :: '&' !in ([head] + ps + pb)[k]
  {
  }

  /** When neither the recipient nor the encoded subject and body contain
      `&`, reading the parameters back out of the tail gives the encoded
      subject and body that were appended, or nothing for one that was not;
      with a decoder that undoes the encoder on them, the originals come back. */
  lemma ComposeQueryRoundTrip(c: EmailClient, mailto: Option<string>, subject: Option<string>,
                              body: Option<string>, encode: string -> Option<string>,
                              decode: string -> string)
    requires mailto.Some? && '&' !in mailto.value
    requires EncodesWithoutAmpersand(subject, encode) && EncodesWithoutAmpersand(body, encode)
    requires subject.Some? && encode(subject.value).Some? ==> decode(encode(subject.value).value) == subject.value
    requires body.Some? && encode(body.value).Some? ==> decode(encode(body.value).value) == body.value
    ensures var tail := ComposeString(c, mailto, subject, body, encode).value;
      && QueryValue(tail, SubjectKey(c)) == (if subject.Some? then encode(subject.value) else None)
      && QueryValue(tail, BodyKey(c)) == (if body.Some? then encode(body.value) else None)
    ensures var tail := ComposeString(c, mailto, subject, body, encode).value;
      && (subject.Some? && encode(subject.value).Some? ==>
            decode(QueryValue(tail, SubjectKey(c)).value) == subject.value)
      && (body.Some? && encode(body.value).Some? ==>
            decode(QueryValue(tail, BodyKey(c)).value) == body.value)
  {
    var sk, bk := SubjectKey(c), BodyKey(c);
    var head := Compose(c) + RecipientKey(c) + mailto.value;
    ComposeStringParts(c, mailto.value, subject, body, encode);
    TailQuery(head, sk, bk, subject, body, encode);
  }

  /** `ComposeQueryRoundTrip` for any head and keys: `&`-free, keys told
      apart by their first character. */
  lemma TailQuery(head: string, sk: string, bk: string, subject: Option<string>,
                  body: Option<string>, encode: string -> Option<string>)
    requires '&' !in head && '&' !in sk && '&' !in bk
    requires |sk| > 0 && |bk| > 0 && sk[0] != bk[0]
    requires EncodesWithoutAmpersand(subject, encode) && EncodesWithoutAmpersand(body, encode)
    ensures var tail := head + Parameter(sk, subject, encode) + Parameter(bk, body, encode);
      && QueryValue(tail, sk) == (if subject.Some? then encode(subject.value) else None)
      && QueryValue(tail, bk) == (if body.Some? then encode(body.value) else None)
  {
    var tail := head + Parameter(sk, subject, encode) + Parameter(bk, body, encode);
    TailPieces(head, sk, bk, subject, body, encode);
    var ps := ParameterPiece(sk, subject, encode);
    var pb := ParameterPiece(bk, body, encode);
    var es := if ps == [] then [] else encode(subject.value).value;
    var eb := if pb == [] then [] else encode(body.value).value;
    assert (sk + es)[0] == sk[0] && (bk + eb)[0] == bk[0];
    assert SplitOn(tail, '&')[1..] == ps + pb;
    KeyedPieces(ps, pb, sk, bk, es, eb);
  }

  /** Reading two keyed pieces back by key. */
  lemma KeyedPieces(ps: seq<string>, pb: seq<string>, sk: string, bk: string, es: string, eb: string)
    requires |ps| <= 1 && (ps != [] ==> ps[0] == sk + es)
    requires |pb| <= 1 && (pb != [] ==> pb[0] == bk + eb)
    requires !StartsWith(sk + es, bk) && !StartsWith(bk + eb, sk)
    ensures FirstWithKey(ps + pb, sk) == (if ps == [] then None else Some(es))
    ensures FirstWithKey(ps + pb, bk) == (if pb == [] then None else Some(eb))
  {
    FirstWithKeyOfPieces(ps, pb, sk, es);
    FirstWithKeyOfPieces(pb, [], bk, eb);
    assert pb + [] == pb;
    if ps != [] {
      var pieces := ps + pb;
      assert pieces[0] == sk + es && pieces[1..] == pb;
      assert !StartsWith(pieces[0], bk);
    } else {
      assert ps + pb == pb;
    }
  }

  /** The recipient goes into the tail unencoded, so a recipient of the form
      `address&subject=v` supplies a subject parameter of its own. */
  lemma UnencodedRecipientAddsSubject(c: EmailClient, address: string, v: string,
                                      encode: string -> Option<string>)
    requires '&' !in address && '&' !in v
    ensures var tail := ComposeString(c, Some(address + "&" + SubjectKey(c) + v), None, None, encode).value;
      QueryValue(tail, SubjectKey(c)) == Some(v)
  {
    var sk := SubjectKey(c);
    ComposeStringParts(c, address + "&" + sk + v, None, None, encode);
    RecipientInjectsPiece(Compose(c) + RecipientKey(c), address, sk, BodyKey(c), v, encode);
  }

  /** `UnencodedRecipientAddsSubject` for any `&`-free prefix and key. */
  lemma RecipientInjectsPiece(pre: string, address: string, key: string, bk: string, v: string,
                               encode: string -> Option<string>)
    requires '&' !in pre && '&' !in address && '&' !in key && '&' !in v
    ensures QueryValue(pre + (address + "&" + key + v) + Parameter(key, None, encode) + Parameter(bk, None, encode), key)
         == Some(v)
  {
    var sp, bp := Parameter(key, None, encode), Parameter(bk, None, encode);
    assert sp == [] && bp == [];
    assert pre + (address + "&" + key + v) + sp + bp == (pre + address) + ['&'] + (key + v);
    InjectedPiece(pre + address, key, v);
  }

  /** A `&`-free head, `&`, and a `&`-free keyed piece: the key finds the piece. */
  lemma InjectedPiece(head: string, key: string, v: string)
    requires '&' !in head && '&' !in key && '&' !in v
    ensures QueryValue(head + ['&'] + (key + v), key) == Some(v)
  {
    SplitAfterSeparator(head, key + v, '&');
    SplitWithoutSeparator(key + v, '&');
    FirstWithKeyOfPieces([key + v], [], key, v);
    assert [key + v] + [] == [key + v];
  }

  /** The subject and body are encoded for `.urlHostAllowed`, which lets `&`
      and `=` through. A subject whose encoding has the form
      `x&<body key>v` therefore supplies a body parameter `v` although no body
      was stored, and the subject read back is cut short at the `&`. */
  lemma EncodedSubjectAddsBody(c: EmailClient, address: string, subject: string, x: string, v: string,
                               encode: string -> Option<string>)
    requires '&' !in address && '&' !in x && '&' !in v
    requires encode(subject) == Some(x + "&" + BodyKey(c) + v)
    ensures var tail := ComposeString(c, Some(address), Some(subject), None, encode).value;
      && QueryValue(tail, BodyKey(c)) == Some(v)
      && QueryValue(tail, SubjectKey(c)) == Some(x)
  {
    var sk, bk := SubjectKey(c), BodyKey(c);
    ComposeStringParts(c, address, Some(subject), None, encode);
    BodyAfterEncodedSubject(Compose(c) + RecipientKey(c) + address, sk, bk, subject, x, v, encode);
  }

  /** `EncodedSubjectAddsBody` for any `&`-free head and keys told apart by
      their first character. */
  lemma BodyAfterEncodedSubject(head: string, sk: string, bk: string, subject: string, x: string, v: string,
                                encode: string -> Option<string>)
    requires '&' !in head && '&' !in sk && '&' !in bk && '&' !in x && '&' !in v
    requires |sk| > 0 && |bk| > 0 && sk[0] != bk[0]
    requires encode(subject) == Some(x + "&" + bk + v)
    ensures var tail := head + Parameter(sk, Some(subject), encode) + Parameter(bk, None, encode);
      QueryValue(tail, bk) == Some(v) && QueryValue(tail, sk) == Some(x)
  {
    var sp, bp := Parameter(sk, Some(subject), encode), Parameter(bk, None, encode);
    assert sp == "&" + sk + (x + "&" + bk + v) && bp == [];
    assert head + sp + bp == head + sp;
    assert x + "&" + bk + v == x + "&" + (bk + v);
    EncodedValueSplits(head, sk, x, bk + v);
    assert SplitOn(head + sp, '&')[1..] == [sk + x] + [bk + v];
    assert (sk + x)[0] == sk[0] && (bk + v)[0] == bk[0];
    KeyedPieces([sk + x], [bk + v], sk, bk, x, v);
  }

  /** With no stored body, an encoded subject `x&y` reads back as `x` alone,
      whatever the encoder: the round trip fails for every encoding that
      keeps an `&`. */
  lemma EncodedAmpersandCutsSubject(c: EmailClient, address: string, subject: string, x: string, y: string,
                                    encode: string -> Option<string>)
    requires '&' !in address && '&' !in x && '&' !in y
    requires encode(subject) == Some(x + "&" + y)
    ensures var tail := ComposeString(c, Some(address), Some(subject), None, encode).value;
      && QueryValue(tail, SubjectKey(c)) == Some(x)
      && QueryValue(tail, SubjectKey(c)) != encode(subject)
  {
    var sk := SubjectKey(c);
    ComposeStringParts(c, address, Some(subject), None, encode);
    SubjectCutAtAmpersand(Compose(c) + RecipientKey(c) + address, sk, BodyKey(c), subject, x, y, encode);
  }

  /** `EncodedAmpersandCutsSubject` for any `&`-free head and key. */
  lemma SubjectCutAtAmpersand(head: string, sk: string, bk: string, subject: string, x: string, y: string,
                              encode: string -> Option<string>)
    requires '&' !in head && '&' !in sk && '&' !in x && '&' !in y
    requires encode(subject) == Some(x + "&" + y)
    ensures QueryValue(head + Parameter(sk, Some(subject), encode) + Parameter(bk, None, encode), sk) == Some(x)
    ensures Some(x) != encode(subject)
  {
    var sp, bp := Parameter(sk, Some(subject), encode), Parameter(bk, None, encode);
    assert sp == "&" + sk + (x + "&" + y) && bp == [];
    assert head + sp + bp == head + sp;
    EncodedValueSplits(head, sk, x, y);
    FirstPieceWins([sk + x, y], sk, x);
    assert |x + "&" + y| > |x|;
  }

  /** The first piece, when it starts with `key`, supplies the value. */
  lemma FirstPieceWins(pieces: seq<string>, key: string, x: string)
    requires pieces != [] && pieces[0] == key + x
    ensures FirstWithKey(pieces, key) == Some(x)
  {
    assert (key + x)[..|key|] == key && (key + x)[|key|..] == x;
  }

  /** A head and one parameter whose encoded value is `x&y`: the pieces after
      the head are the key with `x`, then `y`. */
  lemma EncodedValueSplits(head: string, key: string, x: string, y: string)
    requires '&' !in head && '&' !in key && '&' !in x && '&' !in y
    ensures SplitOn(head + ("&" + key + (x + "&" + y)), '&')[1..] == [key + x, y]
  {
    var v := x + "&" + y;
    assert "&" + key + v == ['&'] + (key + v);
    assert head + (['&'] + (key + v)) == head + ['&'] + (key + v);
    SplitAfterSeparator(head, key + v, '&');
    assert key + v == (key + x) + ['&'] + y by {
      assert key + ((x + ['&']) + y) == (key + (x + ['&'])) + y;
      assert key + (x + ['&']) == (key + x) + ['&'];
    }
    SplitAfterSeparator(key + x, y, '&');
    SplitWithoutSeparator(y, '&');
  }

  /** A scheme, a head and parameters: scheme and head come first, and an
      appended first parameter puts `&` right after them. */
  lemma PrefixBeforeParameters(scheme: string, head: string, params: string)
    ensures StartsWith(scheme + (head + params), scheme + head)
    ensures params != [] && params[0] == '&' ==> (scheme + (head + params))[|scheme + head|] == '&'
  {
    assert (scheme + (head + params))[..|scheme + head|] == scheme + head;
  }

  /** The URL probed for the mail client is its scheme followed by a tail
      that starts with the same scheme: `mailto:mailto:` and then the address,
      with `&`, not `?`, before the first parameter. */
  lemma MailUrlDoublesScheme(mailto: string, subject: Option<string>, body: Option<string>,
                             encode: string -> Option<string>)
    ensures var url := RawValue(Mail) + ComposeString(Mail, Some(mailto), subject, body, encode).value;
      && StartsWith(url, RawValue(Mail) + (RawValue(Mail) + mailto))
      && (subject.Some? && encode(subject.value).Some? ==> url[2 * |RawValue(Mail)| + |mailto|] == '&')
  {
    var params := Parameter(SubjectKey(Mail), subject, encode) + Parameter(BodyKey(Mail), body, encode);
    assert Compose(Mail) + RecipientKey(Mail) + mailto == RawValue(Mail) + mailto;
    PrefixBeforeParameters(RawValue(Mail), RawValue(Mail) + mailto, params);
  }
}
