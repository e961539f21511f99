/**
 * The helper that builds middleware strings of the form `Class:param1,param2`, and
 * the router's reading of such a string back into a class name and its parameters.
 */
module MiddlewareStrings {
  import opened Wrappers
  import opened Text

  /** The namespace of the middleware classes, as `::class` spells it. */
  const Namespace: string := "Ninja\\Larasoul\\Http\\Middleware\\"

  /** A class of the middleware namespace, as `::class` names it. */
  function Qualified(shortName: string): string {
    Namespace + shortName
  }

  const RequireVerificationClass: string := Qualified("RequireVerification")
  const RequireRiskLevelClass: string := Qualified("RequireRiskLevel")
  const RequireVerificationTypeClass: string := Qualified("RequireVerificationType")
  const RequireVerificationLevelClass: string := Qualified("RequireVerificationLevel")
  const RequireDocumentVerificationClass: string := Qualified("RequireDocumentVerification")
  const RequireFaceVerificationClass: string := Qualified("RequireFaceVerification")
  const RequirePhoneVerificationClass: string := Qualified("RequirePhoneVerification")

  /** Every middleware class the helper refers to. */
  const MiddlewareClasses: seq<string> := [
    RequireVerificationClass, RequireRiskLevelClass, RequireVerificationTypeClass, RequireVerificationLevelClass,
    RequireDocumentVerificationClass, RequireFaceVerificationClass, RequirePhoneVerificationClass]

  /** The first position of `c` in `s`. */
  function IndexOf(s: string, c: char): (r: Option<nat>)
    ensures r.None? <==> c !in s
    ensures r.Some? ==> r.value < |s| && s[r.value] == c && c !in s[..r.value]
  {
    if s == [] then None
    else if s[0] == c then Some(0)
    else
      var rest := IndexOf(s[1..], c);
      if rest.None? then None
      else
        assert s[..rest.value + 1] == [s[0]] + s[1..][..rest.value];
        Some(rest.value + 1)
  }

  /** Before the first `c`: the position is the length of what precedes it. */
  lemma {:induction false} IndexOfFirst(a: string, c: char, b: string)
    requires c !in a
    ensures IndexOf(a + [c] + b, c) == Some(|a|)
  {
    var s := a + [c] + b;
    assert s[|a|] == c;
    assert s[..|a|] == a;
  }

  /** PHP `explode` with a one-character separator. */
  function Explode(sep: char, s: string): (parts: seq<string>)
    ensures |parts| >= 1
    decreases |s|
  {
    match IndexOf(s, sep)
    case None => [s]
    case Some(i) => [s[..i]] + Explode(sep, s[i + 1..])
  }

  /** A piece without the separator comes out whole, ahead of the rest. */
  lemma {:induction false} ExplodeCons(sep: char, a: string, b: string)
    requires sep !in a
    ensures Explode(sep, a + [sep] + b) == [a] + Explode(sep, b)
  {
    var s := a + [sep] + b;
    IndexOfFirst(a, sep, b);
    assert s[..|a|] == a;
    assert s[|a| + 1..] == b;
  }

  /** A string without the separator explodes into itself alone. */
  lemma ExplodeWhole(sep: char, s: string)
    ensures sep !in s ==> Explode(sep, s) == [s]
  {
  }

  /** The router's parse: the name before the first ':', and the rest exploded on ','. */
  function Parse(middleware: string): (r: (string, seq<string>))
    ensures ':' !in middleware ==> r == (middleware, [])
  {
    match IndexOf(middleware, ':')
    case None => (middleware, [])
    case Some(i) => (middleware[..i], Explode(',', middleware[i + 1..]))
  }

  /** A class name without ':' followed by parameters parses back into the class and the parameters. */
  lemma {:induction false} ParseParams(cls: string, params: string)
    requires ':' !in cls
    ensures Parse(cls + ":" + params) == (cls, Explode(',', params))
  {
    var s := cls + ":" + params;
    assert s == cls + [':'] + params;
    IndexOfFirst(cls, ':', params);
    assert s[..|cls|] == cls;
    assert s[|cls| + 1..] == params;
  }

  /** PHP truthiness of an optional route: present, and neither "" nor "0". */
  predicate Truthy(route: Option<string>) {
    route.Some? && !PhpEmpty(route.value)
  }

  /** The parameters a redirect route contributes. */
  function RouteParams(route: Option<string>): (ps: seq<string>)
    ensures Truthy(route) <==> |ps| == 1
    ensures Truthy(route) ==> ps == [route.value]
  {
    if Truthy(route) then [route.value] else []
  }

  /** A value the router passes through `explode(',')` unchanged. */
  predicate CommaFree(s: string) {
    ',' !in s
  }

  predicate ClassName(cls: string) {
    ':' !in cls
  }

  /** `Class` with `:route` appended when the route is truthy. */
  function WithRoute(cls: string, route: Option<string>): (m: string)
    ensures ClassName(cls) && (route.Some? ==> CommaFree(route.value)) ==> Parse(m) == (cls, RouteParams(route))
  {
    if Truthy(route) then
      if ClassName(cls) then ParseParams(cls, route.value); ExplodeWhole(',', route.value); cls + ":" + route.value
      else cls + ":" + route.value
    else cls
  }

  /** `Class:first` with `,route` appended when the route is truthy. */
  function WithParams(cls: string, first: string, route: Option<string>): (m: string)
    ensures ClassName(cls) && CommaFree(first) && (route.Some? ==> CommaFree(route.value)) ==>
      Parse(m) == (cls, [first] + RouteParams(route))
  {
    var params := if Truthy(route) then first + "," + route.value else first;
    ParamsExplode(first, route);
    if ClassName(cls) then ParseParams(cls, params); cls + ":" + params
    else cls + ":" + params
  }

  /** The comma-joined parameters explode back into the first one and the route's. */
  lemma {:induction false} ParamsExplode(first: string, route: Option<string>)
    ensures CommaFree(first) && (route.Some? ==> CommaFree(route.value)) ==>
      Explode(',', if Truthy(route) then first + "," + route.value else first) == [first] + RouteParams(route)
  {
    if CommaFree(first) && (route.Some? ==> CommaFree(route.value)) {
      if Truthy(route) {
        assert first + "," + route.value == first + [','] + route.value;
        ExplodeCons(',', first, route.value);
      }
    }
  }

  /** No middleware class name holds a colon, so the router splits each string at the right place. */
  lemma ClassNamesHaveNoColon()
    ensures ClassName(Namespace)
    ensures forall c :: c in MiddlewareClasses ==> ClassName(c)
  {
    var shortNames := ["RequireVerification", "RequireRiskLevel", "RequireVerificationType", "RequireVerificationLevel",
                       "RequireDocumentVerification", "RequireFaceVerification", "RequirePhoneVerification"];
    forall i | 0 <= i < |shortNames|
      ensures ClassName(Qualified(shortNames[i]))
    {
      NoColonAppend(Namespace, shortNames[i]);
    }
    assert forall i :: 0 <= i < |MiddlewareClasses| ==> MiddlewareClasses[i] == Qualified(shortNames[i]);
  }

  lemma NoColonAppend(a: string, b: string)
    requires ClassName(a) && ClassName(b)
    ensures ClassName(a + b)
  {
  }

  /** `verification`. */
  function Verification(route: Option<string>): (m: string)
    ensures (route.Some? ==> CommaFree(route.value)) ==> Parse(m) == (RequireVerificationClass, RouteParams(route))
  {
    ClassNamesHaveNoColon();
    WithRoute(RequireVerificationClass, route)
  }

  /** `riskLevel`, whose maximum defaults to "medium". */
  function RiskLevel(maxLevel: Option<string>, route: Option<string>): (m: string)
    ensures CommaFree(maxLevel.GetOr("medium")) && (route.Some? ==> CommaFree(route.value)) ==>
      Parse(m) == (RequireRiskLevelClass, [maxLevel.GetOr("medium")] + RouteParams(route))
  {
    ClassNamesHaveNoColon();
    WithParams(RequireRiskLevelClass, maxLevel.GetOr("medium"), route)
  }

  /** `verificationType`. */
  function VerificationType(verificationType: string, route: Option<string>): (m: string)
    ensures CommaFree(verificationType) && (route.Some? ==> CommaFree(route.value)) ==>
      Parse(m) == (RequireVerificationTypeClass, [verificationType] + RouteParams(route))
  {
    ClassNamesHaveNoColon();
    WithParams(RequireVerificationTypeClass, verificationType, route)
  }

  /** `verificationLevel`, whose level defaults to "basic". */
  function VerificationLevel(level: Option<string>, route: Option<string>): (m: string)
    ensures CommaFree(level.GetOr("basic")) && (route.Some? ==> CommaFree(route.value)) ==>
      Parse(m) == (RequireVerificationLevelClass, [level.GetOr("basic")] + RouteParams(route))
  {
    ClassNamesHaveNoColon();
    WithParams(RequireVerificationLevelClass, level.GetOr("basic"), route)
  }

  /** `document`. */
  function Document(route: Option<string>): (m: string)
    ensures (route.Some? ==> CommaFree(route.value)) ==> Parse(m) == (RequireDocumentVerificationClass, RouteParams(route))
  {
    ClassNamesHaveNoColon();
    WithRoute(RequireDocumentVerificationClass, route)
  }

  /** `face`. */
  function Face(route: Option<string>): (m: string)
    ensures (route.Some? ==> CommaFree(route.value)) ==> Parse(m) == (RequireFaceVerificationClass, RouteParams(route))
  {
    ClassNamesHaveNoColon();
    WithRoute(RequireFaceVerificationClass, route)
  }

  /** `phone`. */
  function Phone(route: Option<string>): (m: string)
    ensures (route.Some? ==> CommaFree(route.value)) ==> Parse(m) == (RequirePhoneVerificationClass, RouteParams(route))
  {
    ClassNamesHaveNoColon();
    WithRoute(RequirePhoneVerificationClass, route)
  }

  /** A route named "" or "0" is falsy in PHP and is dropped: the middleware sees no redirect. */
  lemma FalsyRouteDropped(route: Option<string>)
    requires route.Some? && PhpEmpty(route.value)
    ensures Parse(Verification(route)) == (RequireVerificationClass, [])
    ensures Parse(RiskLevel(None, route)) == (RequireRiskLevelClass, ["medium"])
  {
    assert CommaFree(route.value);
    assert CommaFree("medium");
  }
}
