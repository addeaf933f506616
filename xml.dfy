/** The part of the client's XML element API that the connectors consult. An
    element's `xmlns` is its effective namespace (the XML layer resolves
    inherited declarations); `value` is its text content. */
module Xml {
  import opened Common

  const NS_TLS := "urn:ietf:params:xml:ns:xmpp-tls"
  const NS_COMPRESS := "http://jabber.org/protocol/compress"
  const NS_COMPRESS_FEATURE := "http://jabber.org/features/compress"
  const NS_STREAMS := "http://etherx.jabber.org/streams"
  const NS_STREAM_ERRORS := "urn:ietf:params:xml:ns:xmpp-streams"
  const NS_FRAMING := "urn:ietf:params:xml:ns:xmpp-framing"

  datatype Element = Element(
    name: string,
    xmlns: Option<string>,
    attrs: map<string, string>,
    value: Option<string>,
    children: seq<Element>)

  predicate Matches(e: Element, name: string, ns: string)
  {
    e.name == name && e.xmlns == Some(ns)
  }

  /** The first element of `cs` with the given name and namespace. */
  function FirstMatch(cs: seq<Element>, name: string, ns: string): Option<Element>
  {
    if cs == [] then None
    else if Matches(cs[0], name, ns) then Some(cs[0])
    else FirstMatch(cs[1..], name, ns)
  }

  /** `FirstMatch` finds nothing exactly when no element matches, and otherwise
      the matching element that comes first. */
  lemma {:induction false} FirstMatchSpec(cs: seq<Element>, name: string, ns: string)
    ensures FirstMatch(cs, name, ns).None? <==> forall i :: 0 <= i < |cs| ==> !Matches(cs[i], name, ns)
    ensures FirstMatch(cs, name, ns).Some? ==>
      exists i :: 0 <= i < |cs| && cs[i] == FirstMatch(cs, name, ns).value && Matches(cs[i], name, ns)
                  && forall j :: 0 <= j < i ==> !Matches(cs[j], name, ns)
    decreases |cs|
  {
    if cs != [] && !Matches(cs[0], name, ns) {
      FirstMatchSpec(cs[1..], name, ns);
      assert forall i :: 1 <= i < |cs| ==> cs[i] == cs[1..][i - 1];
      if FirstMatch(cs, name, ns).Some? {
        var k :| 0 <= k < |cs[1..]| && cs[1..][k] == FirstMatch(cs, name, ns).value && Matches(cs[1..][k], name, ns)
                 && forall j :: 0 <= j < k ==> !Matches(cs[1..][j], name, ns);
        assert cs[k + 1] == cs[1..][k];
      }
    }
  }

  /** `e.getChildrenNS(name, ns)`: the first child with that name and namespace. */
  function ChildNS(e: Element, name: string, ns: string): Option<Element>
  {
    FirstMatch(e.children, name, ns)
  }

  /** The children of `cs` in namespace `ns`, in document order. */
  function InNamespace(cs: seq<Element>, ns: string): seq<Element>
  {
    if cs == [] then []
    else (if cs[0].xmlns == Some(ns) then [cs[0]] else []) + InNamespace(cs[1..], ns)
  }

  /** `InNamespace` keeps exactly the elements of that namespace. */
  lemma {:induction false} InNamespaceMembers(cs: seq<Element>, ns: string)
    ensures |InNamespace(cs, ns)| <= |cs|
    ensures forall x :: x in InNamespace(cs, ns) <==> x in cs && x.xmlns == Some(ns)
    decreases |cs|
  {
    if cs != [] {
      InNamespaceMembers(cs[1..], ns);
      assert forall x :: x in cs <==> x == cs[0] || x in cs[1..];
    }
  }

  /** The first element `InNamespace` keeps is the first one of that namespace. */
  lemma {:induction false} InNamespaceFirst(cs: seq<Element>, ns: string)
    requires InNamespace(cs, ns) != []
    ensures exists i :: 0 <= i < |cs| && cs[i] == InNamespace(cs, ns)[0] && cs[i].xmlns == Some(ns)
                        && forall j :: 0 <= j < i ==> cs[j].xmlns != Some(ns)
    decreases |cs|
  {
    if cs[0].xmlns != Some(ns) {
      var rest := InNamespace(cs[1..], ns);
      assert InNamespace(cs, ns) == rest;
      InNamespaceFirst(cs[1..], ns);
      var m :| 0 <= m < |cs[1..]| && cs[1..][m] == rest[0] && cs[1..][m].xmlns == Some(ns)
               && forall j :: 0 <= j < m ==> cs[1..][j].xmlns != Some(ns);
      assert cs[m + 1] == cs[1..][m];
      assert forall j :: 1 <= j <= m ==> cs[j] == cs[1..][j - 1];
    }
  }

  /** The last element `InNamespace` keeps is the last one of that namespace. */
  lemma {:induction false} InNamespaceLast(cs: seq<Element>, ns: string)
    requires InNamespace(cs, ns) != []
    ensures exists i :: 0 <= i < |cs| && cs[i] == InNamespace(cs, ns)[|InNamespace(cs, ns)| - 1]
                        && cs[i].xmlns == Some(ns)
                        && forall j :: i < j < |cs| ==> cs[j].xmlns != Some(ns)
    decreases |cs|
  {
    var rest := InNamespace(cs[1..], ns);
    if rest == [] {
      assert InNamespace(cs, ns) == [cs[0]];
      InNamespaceMembers(cs[1..], ns);
      assert forall j :: 1 <= j < |cs| ==> cs[j] in cs[1..];
    } else {
      InNamespaceLast(cs[1..], ns);
      var k :| 0 <= k < |cs[1..]| && cs[1..][k] == rest[|rest| - 1] && cs[1..][k].xmlns == Some(ns)
               && forall j :: k < j < |cs[1..]| ==> cs[1..][j].xmlns != Some(ns);
      assert cs[k + 1] == cs[1..][k];
      assert InNamespace(cs, ns)[|InNamespace(cs, ns)| - 1] == rest[|rest| - 1];
      assert forall j :: k + 1 < j < |cs| ==> cs[j] == cs[1..][j - 1];
    }
  }

  /** `e.getChildrenNS(ns)`. */
  function ChildrenNS(e: Element, ns: string): seq<Element>
  {
    InNamespace(e.children, ns)
  }

  /** The children of `cs` with the given name, in document order (`getChildren(name)`). */
  function Named(cs: seq<Element>, name: string): seq<Element>
  {
    if cs == [] then []
    else (if cs[0].name == name then [cs[0]] else []) + Named(cs[1..], name)
  }

  /** `Named` keeps exactly the elements with that name. */
  lemma {:induction false} NamedSpec(cs: seq<Element>, name: string)
    ensures forall x :: x in Named(cs, name) <==> x in cs && x.name == name
    decreases |cs|
  {
    if cs != [] {
      NamedSpec(cs[1..], name);
      assert forall x :: x in cs <==> x == cs[0] || x in cs[1..];
    }
  }
}
