/**
 * The string work of the guard: `authHeader.split(' ')[1]`.
 * `Split` is JavaScript's `String.prototype.split` with the one-character
 * separator ' ': the fields between consecutive spaces, always at least one.
 */
module Header {
  import opened Wrappers

  /** The fields of `s` separated by single spaces, as JavaScript's `s.split(' ')`. */
  function Split(s: string): (fields: seq<string>)
    ensures |fields| >= 1
  {
    if s == [] then [""]
    else if s[0] == ' ' then [""] + Split(s[1..])
    else
      var rest := Split(s[1..]);
      [[s[0]] + rest[0]] + rest[1..]
  }

  /** Inverse of `Split`: the fields glued back together with single spaces. */
  function Join(fields: seq<string>): string
    requires |fields| >= 1
  {
    if |fields| == 1 then fields[0] else fields[0] + " " + Join(fields[1..])
  }

  /** The longest prefix of `s` that holds no space. */
  function UpToSpace(s: string): (prefix: string)
    ensures prefix <= s
    ensures ' ' !in prefix
    ensures |prefix| == |s| || s[|prefix|] == ' '
  {
    if s == [] || s[0] == ' ' then "" else [s[0]] + UpToSpace(s[1..])
  }

  /** The bearer token of an Authorization header: field 1 of the header split on ' ',
      or `None` (JavaScript's `undefined`) when the header has only one field. */
  function ExtractToken(header: string): (token: Option<string>)
    ensures token.Some? <==> |Split(header)| >= 2
    ensures token.Some? ==> token.value == Split(header)[1]
  {
    var fields := Split(header);
    if |fields| >= 2 then Some(fields[1]) else None
  }

  /** Splitting and joining again gives back the header. */
  lemma {:induction false} JoinSplit(s: string)
    ensures Join(Split(s)) == s
  {
    if s == [] {
    } else if s[0] == ' ' {
      JoinSplit(s[1..]);
      assert Split(s)[1..] == Split(s[1..]);
    } else {
      JoinSplit(s[1..]);
      var rest := Split(s[1..]);
      if |rest| == 1 {
      } else {
        assert Split(s)[1..] == rest[1..];
        assert Join(rest) == rest[0] + " " + Join(rest[1..]);
      }
    }
  }

  /** No field of a split holds the separator. */
  lemma {:induction false} SplitFieldsHaveNoSpace(s: string)
    ensures forall i :: 0 <= i < |Split(s)| ==> ' ' !in Split(s)[i]
  {
    if s != [] {
      SplitFieldsHaveNoSpace(s[1..]);
      var rest := Split(s[1..]);
      if s[0] != ' ' {
        assert forall i :: 1 <= i < |Split(s)| ==> Split(s)[i] == rest[i];
      }
    }
  }

  /** A string without spaces is a single field. */
  lemma {:induction false} SplitWithoutSpace(s: string)
    requires ' ' !in s
    ensures Split(s) == [s]
  {
    if s != [] {
      SplitWithoutSpace(s[1..]);
      assert [s[0]] + s[1..] == s;
    }
  }

  /** Up to the first space, the first field is the prefix before it, and the
      remaining fields are those of the text after it. */
  lemma {:induction false} SplitAtFirstSpace(s: string, i: nat)
    requires i < |s| && s[i] == ' '
    requires ' ' !in s[..i]
    ensures Split(s) == [s[..i]] + Split(s[i + 1..])
  {
    if i == 0 {
    } else {
      assert s[0] in s[..i];
      assert s[1..][..i - 1] == s[1..i];
      assert s[1..][i - 1 + 1..] == s[i + 1..];
      SplitAtFirstSpace(s[1..], i - 1);
      assert [s[0]] + s[1..i] == s[..i];
    }
  }

  /** The first field of a split is the text before its first space (or all of it). */
  lemma {:induction false} SplitHead(s: string)
    ensures Split(s)[0] == UpToSpace(s)
  {
    if s != [] && s[0] != ' ' {
      SplitHead(s[1..]);
    }
  }

  /** A header with no space yields no token. */
  lemma NoSpaceNoToken(header: string)
    requires ' ' !in header
    ensures ExtractToken(header) == None
  {
    SplitWithoutSpace(header);
  }

  /** When the first space of the header is at `i`, the token is the text after it,
      up to the second space or the end of the header. */
  lemma TokenAfterFirstSpace(header: string, i: nat)
    requires i < |header| && header[i] == ' '
    requires ' ' !in header[..i]
    ensures ExtractToken(header) == Some(UpToSpace(header[i + 1..]))
  {
    SplitAtFirstSpace(header, i);
    SplitHead(header[i + 1..]);
  }

  /** `scheme + " " + token` with no space in either part yields exactly `token`. */
  lemma TokenOfSchemeAndCredential(scheme: string, token: string)
    requires ' ' !in scheme && ' ' !in token
    ensures ExtractToken(scheme + " " + token) == Some(token)
  {
    var header := scheme + " " + token;
    var i := |scheme|;
    assert header[..i] == scheme;
    assert header[i + 1..] == token;
    TokenAfterFirstSpace(header, i);
    SplitWithoutSpace(token);
    SplitHead(token);
  }
}
