/** The text rules of the WebSocket connector: how an incoming frame is patched
    before the browser's XML parser sees it, and the frames the connector sends
    (the opening tag in the framing of RFC 7395 or in the legacy
    `<stream:stream>` form, the closing tag, the whitespace keepalive). */
module WebSocketFrames {
  import opened Common
  import opened Xml
  import opened Session

  const STREAM_PREFIX := "<stream:"
  const STREAM_OPEN := STREAM_PREFIX + "stream "
  const STREAM_CLOSE := "</stream:stream>"
  /** What the namespace check looks for. */
  const NS_DECL_NAME := "xmlns:stream"
  /** `xmlns:stream='http://etherx.jabber.org/streams'` */
  const STREAM_NS_ATTR := NS_DECL_NAME + "='" + NS_STREAMS + "'"
  /** The opening tag put in front of a lone closing tag. */
  const STREAM_OPEN_NS := STREAM_OPEN + STREAM_NS_ATTR + " >"
  /** The declaration inserted into a `stream:` element that lacks it. */
  const STREAM_NS_DECL := " " + STREAM_NS_ATTR + " "
  const ROOT_OPEN := "<root>"
  const ROOT_CLOSE := "</root>"

  /* ---------------------------------------------------------------------- */
  /* Rewriting incoming frames                                              */

  /** Which of the rewrite rules applies to a frame. */
  datatype Rule =
    | PrefixOpen   // a closing tag without the opening one: the opening tag goes in front
    | AppendClose  // an opening tag without the closing one: the closing tag goes after it
    | DeclareNs    // another `stream:` element without the namespace declaration
    | Keep         // a `stream:` element that needs nothing
    | WrapRoot     // anything else: wrapped in `<root>…</root>`

  function RuleFor(x: string): Rule
  {
    if EndsWith(x, STREAM_CLOSE) && !StartsWith(x, STREAM_OPEN) then PrefixOpen
    else if StartsWith(x, STREAM_PREFIX) then
      if StartsWith(x, STREAM_OPEN) && !Contains(x, STREAM_CLOSE) then AppendClose
      else if !Contains(x, NS_DECL_NAME) then DeclareNs
      else Keep
    else WrapRoot
  }

  /** The namespace insertion as written: at the smaller of the positions of the
      first space and the first `>`. When either character is missing that
      position is -1 and `substring(0, -1)` throws; None stands for the throw. */
  function InsertStreamNsAsWritten(x: string): Option<string>
  {
    var space := IndexOf(x, ' ');
    var close := IndexOf(x, '>');
    var idx := if space < close then space else close;
    if idx < 0 then None else Some(x[..idx] + STREAM_NS_DECL + x[idx..])
  }

  /** The rewrite as written; None where it throws. */
  function RewriteAsWritten(x: string): Option<string>
  {
    match RuleFor(x)
    case PrefixOpen => Some(STREAM_OPEN_NS + x)
    case AppendClose => Some(x + STREAM_CLOSE)
    case DeclareNs => InsertStreamNsAsWritten(x)
    case Keep => Some(x)
    case WrapRoot => Some(ROOT_OPEN + x + ROOT_CLOSE)
  }

  /** The characters that end the tag name at the start of a frame. */
  predicate EndsName(c: char)
  {
    c == ' ' || c == '/' || c == '>'
  }

  /** Where the tag name at the start of `x` ends: at its first space, `/` or
      `>`, or at the end of `x`. */
  function NameEnd(x: string): (i: nat)
    ensures i <= |x|
    ensures forall j :: 0 <= j < i ==> !EndsName(x[j])
    ensures i < |x| ==> EndsName(x[i])
    decreases |x|
  {
    if |x| == 0 || EndsName(x[0]) then 0
    else
      var k := NameEnd(x[1..]);
      assert forall j :: 1 <= j < k + 1 ==> x[j] == x[1..][j - 1];
      k + 1
  }

  /** The position `NameEnd` finds is the only one with its two properties. */
  lemma NameEndUnique(x: string, i: nat)
    requires i <= |x|
    requires forall j :: 0 <= j < i ==> !EndsName(x[j])
    requires i < |x| ==> EndsName(x[i])
    ensures NameEnd(x) == i
  {
  }

  /** The namespace insertion as evidently intended: the declaration goes right
      after the tag name, wherever that ends. */
  function InsertStreamNs(x: string): string
  {
    x[..NameEnd(x)] + STREAM_NS_DECL + x[NameEnd(x)..]
  }

  /** The rewrite with the intended namespace insertion; it never throws. */
  function Rewrite(x: string): string
  {
    match RuleFor(x)
    case PrefixOpen => STREAM_OPEN_NS + x
    case AppendClose => x + STREAM_CLOSE
    case DeclareNs => InsertStreamNs(x)
    case Keep => x
    case WrapRoot => ROOT_OPEN + x + ROOT_CLOSE
  }

  /** Takes out the declaration that follows the tag name, if there is room for one. */
  function RemoveStreamNs(r: string): string
  {
    var i := NameEnd(r);
    if i + |STREAM_NS_DECL| <= |r| then r[..i] + r[i + |STREAM_NS_DECL|..] else r
  }

  /** Undoes what a rule added. */
  function Unwrap(rule: Rule, r: string): string
  {
    match rule
    case PrefixOpen => if StartsWith(r, STREAM_OPEN_NS) then r[|STREAM_OPEN_NS|..] else r
    case AppendClose => if EndsWith(r, STREAM_CLOSE) then r[..|r| - |STREAM_CLOSE|] else r
    case DeclareNs => RemoveStreamNs(r)
    case Keep => r
    case WrapRoot => if |r| >= |ROOT_OPEN| + |ROOT_CLOSE| then r[|ROOT_OPEN|..|r| - |ROOT_CLOSE|] else r
  }

  /** The declaration is inserted right after the tag name, and taking it out
      again gives the frame back. */
  lemma InsertStreamNsRoundTrip(x: string)
    ensures NameEnd(InsertStreamNs(x)) == NameEnd(x)
    ensures RemoveStreamNs(InsertStreamNs(x)) == x
  {
    var i := NameEnd(x);
    var r := InsertStreamNs(x);
    assert r == x[..i] + (STREAM_NS_DECL + x[i..]);
    assert forall j :: 0 <= j < i ==> r[j] == x[j];
    assert r[i] == ' ';
    NameEndUnique(r, i);
    assert r[..i] == x[..i];
    assert r[i + |STREAM_NS_DECL|..] == x[i..];
  }

  /** The rewrite only adds text around or inside the frame: undoing the rule
      that applied gives the frame back. */
  lemma RewriteRoundTrip(x: string)
    ensures Unwrap(RuleFor(x), Rewrite(x)) == x
  {
    var r := Rewrite(x);
    match RuleFor(x)
    case PrefixOpen =>
      assert r[..|STREAM_OPEN_NS|] == STREAM_OPEN_NS;
      assert r[|STREAM_OPEN_NS|..] == x;
    case AppendClose =>
      assert r[|r| - |STREAM_CLOSE|..] == STREAM_CLOSE;
      assert r[..|r| - |STREAM_CLOSE|] == x;
    case DeclareNs =>
      InsertStreamNsRoundTrip(x);
    case Keep =>
    case WrapRoot =>
      assert r[|ROOT_OPEN|..|r| - |ROOT_CLOSE|] == x;
  }

  /** After the intended insertion the frame declares the stream namespace. */
  lemma InsertStreamNsDeclares(x: string)
    ensures Contains(InsertStreamNs(x), NS_DECL_NAME)
  {
    var i := NameEnd(x);
    var r := InsertStreamNs(x);
    assert r[i..i + |STREAM_NS_DECL|] == STREAM_NS_DECL;
    assert r[i + 1..i + 1 + |NS_DECL_NAME|] == r[i..i + |STREAM_NS_DECL|][1..1 + |NS_DECL_NAME|];
    assert STREAM_NS_DECL == " " + NS_DECL_NAME + ("='" + NS_STREAMS + "'" + " ");
    assert STREAM_NS_DECL[1..1 + |NS_DECL_NAME|] == NS_DECL_NAME;
    ContainsAt(r, NS_DECL_NAME, i + 1);
  }

  /** A frame opening with `<stream:stream ` has its tag name end at that space. */
  lemma StreamOpenNameEnd(x: string)
    requires StartsWith(x, STREAM_OPEN)
    ensures NameEnd(x) == |STREAM_OPEN| - 1
  {
    var name := x[..|STREAM_OPEN| - 1];
    assert name == "<stream:stream";
    assert ' ' !in name && '/' !in name && '>' !in name;
    assert forall j :: 0 <= j < |name| ==> x[j] == name[j];
    NameEndUnique(x, |STREAM_OPEN| - 1);
  }

  /** A frame that ends with the closing tag comes out of the rewrite starting
      with the opening tag, so the parser always sees both. */
  lemma RewriteOpensClosedStream(x: string)
    requires EndsWith(x, STREAM_CLOSE)
    ensures StartsWith(Rewrite(x), STREAM_OPEN)
  {
    if StartsWith(x, STREAM_OPEN) {
      assert x[|x| - |STREAM_CLOSE|..|x| - |STREAM_CLOSE| + |STREAM_CLOSE|] == STREAM_CLOSE;
      ContainsAt(x, STREAM_CLOSE, |x| - |STREAM_CLOSE|);
      assert x[..|STREAM_PREFIX|] == STREAM_PREFIX;
      if RuleFor(x) == DeclareNs {
        StreamOpenNameEnd(x);
        assert Rewrite(x)[..|STREAM_OPEN|] == STREAM_OPEN;
      }
    } else {
      assert Rewrite(x)[..|STREAM_OPEN|] == STREAM_OPEN_NS[..|STREAM_OPEN|];
    }
  }

  /** In a frame that starts with the opening tag, a closing tag can only
      occur after it. */
  lemma CloseAfterOpen(x: string, k: nat)
    requires StartsWith(x, STREAM_OPEN) && OccursAt(x, STREAM_CLOSE, k)
    ensures k >= |STREAM_OPEN|
  {
    assert x[k] == x[k..k + |STREAM_CLOSE|][0] == '<';
    assert x[k + 1] == x[k..k + |STREAM_CLOSE|][1] == '/';
    var name := x[1..|STREAM_OPEN|];
    assert name == "stream:stream ";
    assert '<' !in name;
    assert forall j :: 0 < j < |STREAM_OPEN| ==> x[j] == name[j - 1];
    assert x[1] != '/';
  }

  /** Text after the tag name survives the insertion, shifted by the declaration. */
  lemma InsertKeepsTail(x: string, p: string, k: nat)
    requires NameEnd(x) <= k && OccursAt(x, p, k)
    ensures OccursAt(InsertStreamNs(x), p, k + |STREAM_NS_DECL|)
  {
    var i := NameEnd(x);
    var d := |STREAM_NS_DECL|;
    var r := x[..i] + STREAM_NS_DECL + x[i..];
    assert r == InsertStreamNs(x);
    assert forall m :: i + d <= m < |r| ==> r[m] == x[m - d];
    assert r[k + d..k + d + |p|] == x[k..k + |p|];
  }

  /** A frame that starts with the opening tag comes out of the rewrite holding
      the closing tag, so the parser never sees an unclosed root. */
  lemma RewriteClosesOpenStream(x: string)
    requires StartsWith(x, STREAM_OPEN)
    ensures Contains(Rewrite(x), STREAM_CLOSE)
  {
    assert x[..|STREAM_PREFIX|] == STREAM_PREFIX;
    var r := Rewrite(x);
    if !Contains(x, STREAM_CLOSE) {
      assert r[|x|..|x| + |STREAM_CLOSE|] == STREAM_CLOSE;
      ContainsAt(r, STREAM_CLOSE, |x|);
    } else if RuleFor(x) == DeclareNs {
      ContainsIndex(x, STREAM_CLOSE);
      var k: nat :| OccursAt(x, STREAM_CLOSE, k);
      CloseAfterOpen(x, k);
      StreamOpenNameEnd(x);
      InsertKeepsTail(x, STREAM_CLOSE, k);
      ContainsAt(r, STREAM_CLOSE, k + |STREAM_NS_DECL|);
    }
  }

  /** The insertion as written throws exactly when the frame lacks a space or a `>`. */
  lemma InsertStreamNsAsWrittenFails(x: string)
    ensures InsertStreamNsAsWritten(x).None? <==> ' ' !in x || '>' !in x
  {
  }

  /** Where the insertion as written does not throw and the tag name is not
      ended by a `/`, it is the intended one. */
  lemma InsertStreamNsAgrees(x: string)
    requires ' ' in x && '>' in x && '/' !in x
    ensures InsertStreamNsAsWritten(x) == Some(InsertStreamNs(x))
  {
    var space := IndexOf(x, ' ');
    var close := IndexOf(x, '>');
    var idx := if space < close then space else close;
    assert forall j :: 0 <= j < idx ==> x[j] in x[..space] && x[j] in x[..close];
    NameEndUnique(x, idx);
  }

  /** Outside those frames the rewrite as written and the intended one agree. */
  lemma RewriteAgrees(x: string)
    requires RuleFor(x) == DeclareNs ==> ' ' in x && '>' in x && '/' !in x
    ensures RewriteAsWritten(x) == Some(Rewrite(x))
  {
    if RuleFor(x) == DeclareNs {
      InsertStreamNsAgrees(x);
    }
  }

  /** An empty features element with the stream prefix. */
  const EMPTY_FEATURES := STREAM_PREFIX + "features/>"

  /** The tag name of `<stream:features/>` ends at its `/`. */
  lemma EmptyFeaturesNameEnd()
    ensures NameEnd(EMPTY_FEATURES) == 16
  {
    var x := EMPTY_FEATURES;
    var name := x[..16];
    assert name == "<stream:features";
    assert ' ' !in name && '/' !in name && '>' !in name;
    assert forall j :: 0 <= j < |name| ==> x[j] == name[j];
    assert x[16] == '/';
    NameEndUnique(x, 16);
  }

  /** `<stream:features/>` falls under the namespace rule and has no space. */
  lemma EmptyFeaturesRule()
    ensures RuleFor(EMPTY_FEATURES) == DeclareNs
    ensures ' ' !in EMPTY_FEATURES
  {
    var x := EMPTY_FEATURES;
    assert x == "<stream:features/>";
    assert x[|x| - |STREAM_CLOSE|..][0] != STREAM_CLOSE[0];
    assert x[..|STREAM_PREFIX|] == STREAM_PREFIX;
    assert x[..|STREAM_OPEN|][8] != STREAM_OPEN[8];
    assert 'x' !in x && ' ' !in x;
    if Contains(x, NS_DECL_NAME) {
      ContainsFirstChar(x, NS_DECL_NAME);
    }
  }

  /** `<stream:features/>` makes the rewrite as written throw; the intended
      rewrite declares the namespace right after the tag name. */
  lemma EmptyFeaturesFrame()
    ensures RewriteAsWritten(EMPTY_FEATURES).None?
    ensures Rewrite(EMPTY_FEATURES) == "<stream:features" + STREAM_NS_DECL + "/>"
  {
    var x := EMPTY_FEATURES;
    EmptyFeaturesRule();
    InsertStreamNsAsWrittenFails(x);
    EmptyFeaturesNameEnd();
    assert x == "<stream:features/>";
    assert x[..16] == "<stream:features";
    assert x[16..] == "/>";
  }

  /* ---------------------------------------------------------------------- */
  /* Outgoing frames                                                        */

  const OPEN_PREFIX := "<open "
  const VERSION := "version='1.0' "
  const FRAMING_TAIL := "xmlns='urn:ietf:params:xml:ns:xmpp-framing'/>"
  const LEGACY_TAIL := "xmlns='jabber:client' xmlns:stream='http://etherx.jabber.org/streams'>"
  /** The closing frame of RFC 7395 framing. */
  const FRAMING_CLOSE := "<close xmlns='urn:ietf:params:xml:ns:xmpp-framing'/>"

  /** The opening tag `restartStream` sends. */
  function Header(rfc: bool, a: Address): string
  {
    (if rfc then OPEN_PREFIX else STREAM_OPEN) + AddressAttributes(a) + VERSION
      + (if rfc then FRAMING_TAIL else LEGACY_TAIL)
  }

  /** What is handed to `send(String)`: an opening tag, a closing tag (both in
      the framing in use) or the whitespace keepalive. */
  datatype Frame = OpenFrame(rfc: bool, address: Address) | CloseFrame(rfc: bool) | Whitespace

  /** The text of a frame. */
  function Render(f: Frame): string
  {
    match f
    case OpenFrame(rfc, a) => Header(rfc, a)
    case CloseFrame(rfc) => if rfc then FRAMING_CLOSE else STREAM_CLOSE
    case Whitespace => " "
  }

  /** The header is an RFC 7395 `<open/>` exactly in framing mode, and only
      then is it a self-closed element. */
  lemma HeaderFraming(rfc: bool, a: Address)
    ensures StartsWith(Header(rfc, a), OPEN_PREFIX) <==> rfc
    ensures EndsWith(Header(rfc, a), "/>") <==> rfc
  {
    var h := Header(rfc, a);
    if rfc {
      assert h[..|OPEN_PREFIX|] == OPEN_PREFIX;
      assert h[|h| - 2..] == FRAMING_TAIL[|FRAMING_TAIL| - 2..];
    } else {
      assert h[..|OPEN_PREFIX|][1] != OPEN_PREFIX[1];
      assert h[|h| - 2..][0] != '/';
    }
  }

  /** Both headers carry the same addressing and version between their
      mode-specific opening and tail. */
  lemma HeaderBody(rfc: bool, a: Address)
    ensures var h := Header(rfc, a);
            var lead := if rfc then |OPEN_PREFIX| else |STREAM_OPEN|;
            var tail := if rfc then |FRAMING_TAIL| else |LEGACY_TAIL|;
            lead + tail <= |h| && h[lead..|h| - tail] == AddressAttributes(a) + VERSION
  {
  }
}
