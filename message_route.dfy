/**
 * MessageRoute: an immutable association of a message type name with a
 * handler class and method, the matching rule, and the route's string id.
 */
module Routing {

  import opened Wrappers
  import opened Messages

  /** The wildcard type name: the fully qualified name of MessageInterface. */
  const ANY_MESSAGE: string := "Morebec\\Orkestra\\Messaging\\MessageInterface"

  const ARROW: string := " => "
  const SCOPE: string := "::"

  /** A route; its fields are its getters and never change once built. */
  datatype MessageRoute = MessageRoute(
    messageTypeName: string,
    messageHandlerClassName: string,
    messageHandlerMethodName: string)

  /** The route applies to the message: same type name, or the wildcard. The headers play no part. */
  predicate Matches(route: MessageRoute, message: Message, headers: Headers)
  {
    route.messageTypeName == message.typeName || route.messageTypeName == ANY_MESSAGE
  }

  /** "<type name> => <handler class>::<handler method>". */
  function GetId(route: MessageRoute): string
  {
    route.messageTypeName + ARROW + route.messageHandlerClassName + SCOPE + route.messageHandlerMethodName
  }

  function ToString(route: MessageRoute): string
  {
    GetId(route)
  }

  /** The position of the first occurrence of c in s, if any. */
  function IndexOf(s: string, c: char): (r: Option<nat>)
    ensures r.Some? ==> r.value < |s| && s[r.value] == c && c !in s[..r.value]
    ensures r.None? <==> c !in s
  {
    if |s| == 0 then None
    else if s[0] == c then Some(0)
    else match IndexOf(s[1..], c)
      case None => None
      case Some(k) => (assert s[..k + 1] == [s[0]] + s[1..][..k]; Some(k + 1))
  }

  /**
   * Reads an id back into a route: the type name runs up to the first '=' (less
   * the space before it), the class name from after " => " up to the first ':'.
   */
  function ParseId(id: string): Option<MessageRoute>
  {
    match IndexOf(id, '=')
    case None => None
    case Some(p) =>
      if p < 1 || p + 3 > |id| || id[p - 1..p + 3] != ARROW then None
      else
        var rest := id[p + 3..];
        match IndexOf(rest, ':')
        case None => None
        case Some(q) =>
          if q + 2 > |rest| || rest[q..q + 2] != SCOPE then None
          else Some(MessageRoute(id[..p - 1], rest[..q], rest[q + 2..]))
  }

  /*
   * Properties of matching.
   */

  /** A wildcard route matches every message, whatever its headers. */
  lemma WildcardMatchesEveryMessage(route: MessageRoute, message: Message, headers: Headers)
    requires route.messageTypeName == ANY_MESSAGE
    ensures Matches(route, message, headers)
  {
  }

  /** Any other route matches exactly the messages of its own type name. */
  lemma RouteMatchesItsOwnType(route: MessageRoute, message: Message, headers: Headers)
    requires route.messageTypeName != ANY_MESSAGE
    ensures Matches(route, message, headers) <==> message.typeName == route.messageTypeName
  {
  }

  /** Matching does not look at the headers. */
  lemma MatchesIgnoresHeaders(route: MessageRoute, message: Message, h1: Headers, h2: Headers)
    ensures Matches(route, message, h1) == Matches(route, message, h2)
  {
  }

  /*
   * Properties of the id.
   */

  /** __toString is getId. */
  lemma ToStringIsId(route: MessageRoute)
    ensures ToString(route) == route.messageTypeName + " => " + route.messageHandlerClassName + "::" + route.messageHandlerMethodName
  {
  }

  /** The getters give back the constructor's arguments. */
  lemma GettersReturnArguments(t: string, c: string, m: string)
    ensures MessageRoute(t, c, m).messageTypeName == t
    ensures MessageRoute(t, c, m).messageHandlerClassName == c
    ensures MessageRoute(t, c, m).messageHandlerMethodName == m
  {
  }

  /** Whatever ParseId reads back rebuilds the id it read. */
  lemma {:induction false} ParseIdSound(id: string, route: MessageRoute)
    requires ParseId(id) == Some(route)
    ensures GetId(route) == id
  {
    var p := IndexOf(id, '=').value;
    assert 1 <= p && p + 3 <= |id| && id[p - 1..p + 3] == ARROW;
    var rest := id[p + 3..];
    var q := IndexOf(rest, ':').value;
    assert q + 2 <= |rest| && rest[q..q + 2] == SCOPE;
    assert route == MessageRoute(id[..p - 1], rest[..q], rest[q + 2..]);
    calc {
      GetId(route);
      id[..p - 1] + ARROW + (rest[..q] + SCOPE + rest[q + 2..]);
      { SplitThree(rest, q, q + 2); }
      id[..p - 1] + id[p - 1..p + 3] + id[p + 3..];
      { SplitThree(id, p - 1, p + 3); }
      id;
    }
  }

  lemma SplitThree(s: string, i: nat, j: nat)
    requires i <= j <= |s|
    ensures s == s[..i] + s[i..j] + s[j..]
  {
  }

  /** A character found at p with none of it before p is what IndexOf finds. */
  lemma IndexOfFindsFirst(s: string, c: char, p: nat)
    requires p < |s| && s[p] == c && c !in s[..p]
    ensures IndexOf(s, c) == Some(p)
  {
  }

  /** In "t => rest" with no '=' in t, the first '=' is the arrow's. */
  lemma SplitAtArrow(id: string, t: string, rest: string)
    requires '=' !in t && id == t + ARROW + rest
    ensures IndexOf(id, '=') == Some(|t| + 1)
    ensures id[|t|..|t| + 4] == ARROW && id[..|t|] == t && id[|t| + 4..] == rest
  {
    assert id[..|t| + 1] == t + [' '];
    IndexOfFindsFirst(id, '=', |t| + 1);
  }

  /** In "c::m" with no ':' in c, the first ':' starts the separator. */
  lemma SplitAtScope(rest: string, c: string, m: string)
    requires ':' !in c && rest == c + SCOPE + m
    ensures IndexOf(rest, ':') == Some(|c|)
    ensures rest[|c|..|c| + 2] == SCOPE && rest[..|c|] == c && rest[|c| + 2..] == m
  {
    assert rest[..|c|] == c;
    IndexOfFindsFirst(rest, ':', |c|);
  }

  /**
   * When the type name holds no '=' and the class name no ':', the id
   * determines the route: parsing it gives the route back.
   */
  lemma {:induction false} ParseIdRoundTrip(route: MessageRoute)
    requires '=' !in route.messageTypeName && ':' !in route.messageHandlerClassName
    ensures ParseId(GetId(route)) == Some(route)
  {
    var t, c, m := route.messageTypeName, route.messageHandlerClassName, route.messageHandlerMethodName;
    var rest := c + SCOPE + m;
    assert GetId(route) == t + ARROW + rest;
    SplitAtArrow(GetId(route), t, rest);
    SplitAtScope(rest, c, m);
  }

  /** Under the same conditions two routes with one id are the same route. */
  lemma IdIdentifiesRoute(r1: MessageRoute, r2: MessageRoute)
    requires '=' !in r1.messageTypeName && ':' !in r1.messageHandlerClassName
    requires '=' !in r2.messageTypeName && ':' !in r2.messageHandlerClassName
    requires GetId(r1) == GetId(r2)
    ensures r1 == r2
  {
    ParseIdRoundTrip(r1);
    ParseIdRoundTrip(r2);
  }

  /**
   * Without those conditions the id is ambiguous: a class name holding "::", or
   * a type name holding " => ", lets two different routes share one id.
   */
  lemma IdsCanCollide()
    ensures MessageRoute("a", "b::c", "d") != MessageRoute("a", "b", "c::d")
    ensures GetId(MessageRoute("a", "b::c", "d")) == GetId(MessageRoute("a", "b", "c::d"))
    ensures MessageRoute("a => b", "c", "d") != MessageRoute("a", "b => c", "d")
    ensures GetId(MessageRoute("a => b", "c", "d")) == GetId(MessageRoute("a", "b => c", "d"))
  {
  }

}
