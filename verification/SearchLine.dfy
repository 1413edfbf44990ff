/** One command line of tokens separated by spaces: atoms and quoted strings, as they are
    joined and as a server takes them apart again (RFC 3501 section 9).
  */
module SearchLine {
  import opened Prelude
  import opened ImapQuoting

  type Token = seq<Byte>

  const SPACE: Byte := 32

  /** The tokens on one line. */
  function Join(tokens: seq<Token>): seq<Byte> {
    if tokens == [] then []
    else if |tokens| == 1 then tokens[0]
    else tokens[0] + ([SPACE] + Join(tokens[1..]))
  }

  /** Visible ASCII but for the quote; the atoms sent here need no more. */
  predicate AtomByte(b: Byte) {
    32 < b < 127 && b != DQUOTE
  }

  predicate IsAtom(t: Token) {
    t != [] && forall i :: 0 <= i < |t| ==> AtomByte(t[i])
  }

  predicate IsQuoted(t: Token) {
    ParseQuoted(t).Some? && ParseQuoted(t).value.1 == []
  }

  predicate WellFormed(t: Token) {
    IsAtom(t) || IsQuoted(t)
  }

  function AtomLength(b: seq<Byte>): (n: nat)
    ensures n <= |b|
    ensures forall i :: 0 <= i < n ==> AtomByte(b[i])
    ensures n < |b| ==> !AtomByte(b[n])
  {
    if b == [] || !AtomByte(b[0]) then 0 else 1 + AtomLength(b[1..])
  }

  /** The first token and what follows it. */
  function NextToken(b: seq<Byte>): (r: Option<(Token, seq<Byte>)>)
    ensures r.Some? ==> |r.value.1| < |b|
  {
    if b == [] then None
    else if b[0] == DQUOTE then
      match ParseQuoted(b)
      case None => None
      case Some((_, rest)) => if |rest| < |b| then Some((b[..|b| - |rest|], rest)) else None
    else
      var n := AtomLength(b);
      if n == 0 then None else Some((b[..n], b[n..]))
  }

  /** Tokens with one space between them, to the end of the line. */
  function Tokenise(b: seq<Byte>): Option<seq<Token>>
    decreases |b|
  {
    match NextToken(b)
    case None => None
    case Some((token, rest)) =>
      if rest == [] then Some([token])
      else if rest[0] != SPACE then None
      else
        match Tokenise(rest[1..])
        case None => None
        case Some(tokens) => Some([token] + tokens)
  }

  lemma {:induction false} InsideMore(b: seq<Byte>, more: seq<Byte>)
    requires Inside(b).Some?
    ensures Inside(b + more) == Some((Inside(b).value.0, Inside(b).value.1 + more))
    ensures |Inside(b).value.1| < |b|
    decreases |b|
  {
    if b[0] == DQUOTE {
      assert (b + more)[1..] == b[1..] + more;
    } else {
      var n := if b[0] == BACKSLASH then 2 else 1;
      InsideMore(b[n..], more);
      assert (b + more)[n..] == b[n..] + more;
    }
  }

  lemma ParseMore(t: Token, more: seq<Byte>)
    requires IsQuoted(t)
    ensures ParseQuoted(t + more) == Some((ParseQuoted(t).value.0, more))
  {
    hide Inside;
    assert (t + more)[1..] == t[1..] + more;
    InsideMore(t[1..], more);
    assert [] + more == more;
  }

  lemma AtomMore(t: Token, more: seq<Byte>)
    requires IsAtom(t) && (more == [] || more[0] == SPACE)
    ensures AtomLength(t + more) == |t|
  {
    hide AtomLength;
    var n := AtomLength(t + more);
    assert forall i :: 0 <= i < |t| ==> (t + more)[i] == t[i];
    assert more != [] ==> (t + more)[|t|] == SPACE;
  }

  /** A token ends where it was meant to. */
  lemma NextIs(t: Token, more: seq<Byte>)
    requires WellFormed(t) && (more == [] || more[0] == SPACE)
    ensures NextToken(t + more) == Some((t, more))
  {
    hide AtomLength;
    hide Inside;
    if IsAtom(t) {
      AtomMore(t, more);
      assert AtomByte((t + more)[0]);
    } else {
      ParseMore(t, more);
      assert (t + more)[0] == DQUOTE;
    }
    assert (t + more)[..|t|] == t && (t + more)[|t|..] == more;
    hide IsAtom;
    hide IsQuoted;
    hide ParseQuoted;
  }

  /** Taking the line apart gives the tokens it was joined from. */
  lemma {:induction false} TokeniseJoin(tokens: seq<Token>)
    requires tokens != [] && forall i :: 0 <= i < |tokens| ==> WellFormed(tokens[i])
    ensures Tokenise(Join(tokens)) == Some(tokens)
  {
    hide NextToken;
    hide WellFormed;
    if |tokens| == 1 {
      NextIs(tokens[0], []);
      assert tokens[0] + [] == tokens[0] && [tokens[0]] == tokens;
    } else {
      var more := [SPACE] + Join(tokens[1..]);
      NextIs(tokens[0], more);
      TokeniseJoin(tokens[1..]);
      assert more[1..] == Join(tokens[1..]);
      assert tokens == [tokens[0]] + tokens[1..];
    }
  }

  // --- nothing on the line ends it early ------------------------------------------------------

  predicate OneLine(b: seq<Byte>) {
    forall i :: 0 <= i < |b| ==> !Forbidden(b[i])
  }

  lemma {:induction false} InsideOneLine(b: seq<Byte>)
    requires Inside(b).Some? && Inside(b).value.1 == []
    ensures OneLine(b)
    decreases |b|
  {
    if b[0] == DQUOTE {
      assert |b| == 1;
    } else {
      var n := if b[0] == BACKSLASH then 2 else 1;
      InsideOneLine(b[n..]);
      assert b == b[..n] + b[n..];
    }
  }

  lemma WellFormedOneLine(t: Token)
    requires WellFormed(t)
    ensures OneLine(t)
  {
    hide Inside;
    if IsQuoted(t) {
      InsideOneLine(t[1..]);
      assert t == [t[0]] + t[1..];
    }
  }

  lemma {:induction false} JoinOneLine(tokens: seq<Token>)
    requires forall i :: 0 <= i < |tokens| ==> WellFormed(tokens[i])
    ensures OneLine(Join(tokens))
  {
    hide WellFormed;
    if tokens != [] {
      WellFormedOneLine(tokens[0]);
      JoinOneLine(tokens[1..]);
    }
  }
}
