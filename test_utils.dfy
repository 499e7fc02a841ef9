/**
 * The deterministic, data-shaping parts of Kettle's test harness
 * (test/utils/js/KettleTestUtils.js): wrapping a test sequence with the
 * server start-up and shut-down steps, stamping a test definition, building
 * the options of an HTTP test request, keeping the cookie jar, setting the
 * cookie on a raw socket.io request, and the socket.io connection URL.
 *
 * fluid.stringTemplate and JSON.stringify are parameters (`template`,
 * `stringify`); JSON.stringify yields None where JavaScript gives `undefined`.
 */
module TestUtils {
  import opened Wrappers
  import opened JsValue

  /** A mutable JavaScript object, known by its own properties. */
  class JsObject {
    var fields: map<string, Value>

    constructor (fields: map<string, Value>)
      ensures this.fields == fields
    {
      this.fields := fields;
    }
  }

  /** kettle.tests.cookieJar: its `cookie` member, initially the empty string. */
  class CookieJar {
    var cookie: Value

    constructor ()
      ensures cookie == Str("")
    {
      cookie := Str("");
    }
  }

  /** The XMLHttpRequest the socket.io client opens: the headers set on it, in order. */
  class RawRequest {
    var headersSet: seq<(string, Value)>

    constructor ()
      ensures headersSet == []
    {
      headersSet := [];
    }

    /** `request.setRequestHeader(name, value)`. */
    method SetRequestHeader(name: string, value: Value)
      modifies this
      ensures headersSet == old(headersSet) + [(name, value)]
    {
      headersSet := headersSet + [(name, value)];
    }
  }

  // ---------------------------------------------------------------------------
  // moduleSource and buildTestCase
  // ---------------------------------------------------------------------------

  const ApplyConfigurationStep: Value :=
    Obj(map["func" := Str("{tests}.events.applyConfiguration.fire")])
  const AwaitServerReadyStep: Value :=
    Obj(map["event" := Str("{tests}.events.onServerReady"), "listener" := Str("fluid.identity")])
  const StopServerStep: Value :=
    Obj(map["func" := Str("{tests}.configuration.server.stop")])
  const AwaitStoppedStep: Value :=
    Obj(map["event" := Str("{tests}.configuration.server.events.onStopped"), "listener" := Str("fluid.identity")])

  /**
   * kettle.tests.moduleSource(testDef): the test module for one definition.
   * Its sequence is a copy of the definition's, with the configuration and
   * server-ready steps in front and the server stop steps behind; a
   * definition whose sequence is not an array has no `unshift`, so the call
   * throws. The method has no modifies clause: the definition is left as it is.
   */
  method ModuleSource(testDef: JsObject) returns (r: Result<Value, JsError>)
    ensures r.Ok? <==> Get(testDef.fields, "sequence").Arr?
    ensures r.Ok? ==> r.value.Obj? && r.value.fields.Keys == {"name", "tests"}
    ensures r.Ok? ==>
      r.value.fields["name"] == Str(ToStr(Get(testDef.fields, "configurationName")) + " tests.")
    ensures r.Ok? ==>
      var tests := r.value.fields["tests"];
      && tests.Obj? && tests.fields.Keys == {"name", "expect", "sequence"}
      && tests.fields["name"] == Get(testDef.fields, "name")
      && tests.fields["expect"] == Get(testDef.fields, "expect")
      && tests.fields["sequence"].Arr?
    ensures r.Ok? ==>
      var steps := r.value.fields["tests"].fields["sequence"].items;
      var original := Get(testDef.fields, "sequence").items;
      && |steps| == |original| + 4
      && steps[..2] == [ApplyConfigurationStep, AwaitServerReadyStep]
      && steps[2..|steps| - 2] == original
      && steps[|steps| - 2..] == [StopServerStep, AwaitStoppedStep]
  {
    var sequence := Get(testDef.fields, "sequence");   // fluid.copy
    if !sequence.Arr? {
      return Err(TypeError);
    }
    var steps := sequence.items;
    steps := [ApplyConfigurationStep, AwaitServerReadyStep] + steps;   // unshift
    steps := steps + [StopServerStep, AwaitStoppedStep];               // push
    var tests := Obj(map[
      "name" := Get(testDef.fields, "name"),
      "expect" := Get(testDef.fields, "expect"),
      "sequence" := Arr(steps)]);
    r := Ok(Obj(map[
      "name" := Str(ToStr(Get(testDef.fields, "configurationName")) + " tests."),
      "tests" := tests]));
    assert steps[2..|steps| - 2] == sequence.items;
  }

  /** The invoker record buildTestCase stores as `moduleSource`. */
  const ModuleSourceInvoker: Value :=
    Obj(map["funcName" := Str("kettle.tests.moduleSource"), "args" := Str("{kettle.tests.testCaseHolder}.options")])

  /**
   * kettle.tests.buildTestCase(configurationName, testDef): sets
   * `configurationName` and `moduleSource` on the definition itself and
   * returns that same object; no other property changes.
   */
  method BuildTestCase(configurationName: Value, testDef: JsObject) returns (r: JsObject)
    modifies testDef
    ensures r == testDef
    ensures testDef.fields.Keys == old(testDef.fields).Keys + {"configurationName", "moduleSource"}
    ensures testDef.fields["configurationName"] == configurationName
    ensures testDef.fields["moduleSource"] == ModuleSourceInvoker
    ensures forall k :: k in old(testDef.fields) && k != "configurationName" && k != "moduleSource" ==>
      testDef.fields[k] == old(testDef.fields)[k]
  {
    testDef.fields := testDef.fields["configurationName" := configurationName];
    testDef.fields := testDef.fields["moduleSource" := ModuleSourceInvoker];
    r := testDef;
  }

  // ---------------------------------------------------------------------------
  // The HTTP test request
  // ---------------------------------------------------------------------------

  /** What kettle.tests.request.http.send hands to http.request, and the body it writes, if any. */
  datatype HttpRequest = HttpRequest(options: map<string, Value>, body: Option<string>)

  /** `options.headers || {}`. */
  function DefaultHeaders(options: map<string, Value>): Value {
    Or(Get(options, "headers"), Obj(map[]))
  }

  /** `typeof model === "string" ? model : JSON.stringify(model)`, None standing for `undefined`. */
  function Serialized(model: Value, stringify: Value -> Option<string>): Option<string> {
    if model.Str? then Some(model.s) else stringify(model)
  }

  /**
   * kettle.tests.request.http.send up to the call of http.request: copies
   * the request options, fills in the templated path, defaults the headers,
   * sets Content-Type and Content-Length when there is a body and Cookie when
   * the jar holds a cookie. The method has no modifies clause: neither the
   * caller's options nor the jar change.
   */
  method HttpSend(requestOptions: JsObject, termMap: Value, jar: CookieJar, model: Value,
                  template: (Value, Value) -> Value, stringify: Value -> Option<string>)
    returns (r: Result<HttpRequest, JsError>)
    requires !Get(requestOptions.fields, "headers").Arr? && !Get(requestOptions.fields, "headers").Fn?
    ensures r.Err? <==>
      || ((Truthy(model) || Truthy(jar.cookie)) && !DefaultHeaders(requestOptions.fields).Obj?)
      || (Truthy(model) && Serialized(model, stringify).None?)
    ensures r.Ok? ==> r.value.options.Keys == requestOptions.fields.Keys + {"path", "headers"}
    ensures r.Ok? ==> forall k :: k in requestOptions.fields && k != "path" && k != "headers" ==>
      r.value.options[k] == requestOptions.fields[k]
    ensures r.Ok? ==> r.value.options["path"] == template(Get(requestOptions.fields, "path"), termMap)
    ensures r.Ok? && !DefaultHeaders(requestOptions.fields).Obj? ==>
      r.value.options["headers"] == DefaultHeaders(requestOptions.fields)
    ensures r.Ok? && DefaultHeaders(requestOptions.fields).Obj? ==>
      var before := DefaultHeaders(requestOptions.fields).fields;
      && r.value.options["headers"].Obj?
      && var h := r.value.options["headers"].fields;
      && h.Keys == before.Keys
                   + (if Truthy(model) then {"Content-Type", "Content-Length"} else {})
                   + (if Truthy(jar.cookie) then {"Cookie"} else {})
      && (Truthy(model) ==> h["Content-Type"] == Str("application/json"))
      && (Truthy(model) ==> h["Content-Length"] == Num(|Serialized(model, stringify).value|))
      && (Truthy(jar.cookie) ==> h["Cookie"] == jar.cookie)
      && (forall k :: k in before
            && !(Truthy(model) && (k == "Content-Type" || k == "Content-Length"))
            && !(Truthy(jar.cookie) && k == "Cookie")
            ==> h[k] == before[k])
    ensures r.Ok? ==>
      r.value.body == (if Truthy(model) && Serialized(model, stringify).value != "" then Serialized(model, stringify) else None)
  {
    var options := requestOptions.fields;                                      // fluid.copy
    options := options["path" := template(Get(options, "path"), termMap)];
    options := options["headers" := DefaultHeaders(options)];
    var body := model;
    if Truthy(model) {
      body := match Serialized(model, stringify) case Some(text) => Str(text) case None => Undefined;
      var headers := options["headers"];
      if !headers.Obj? {
        return Err(TypeError);
      }
      headers := Obj(headers.fields["Content-Type" := Str("application/json")]);
      if !body.Str? {
        return Err(TypeError);                                                  // model.length of undefined
      }
      headers := Obj(headers.fields["Content-Length" := Num(|body.s|)]);
      options := options["headers" := headers];
    }
    if Truthy(jar.cookie) {
      var headers := options["headers"];
      if !headers.Obj? {
        return Err(TypeError);
      }
      options := options["headers" := Obj(headers.fields["Cookie" := jar.cookie])];
    }
    r := Ok(HttpRequest(options, if Truthy(body) then Some(body.s) else None));
  }

  /**
   * The "end" handler of the HTTP response: the jar takes the response's
   * set-cookie header when there is one and keeps its cookie otherwise.
   */
  method OnResponseEnd(jar: CookieJar, responseHeaders: map<string, Value>)
    modifies jar
    ensures Truthy(Get(responseHeaders, "set-cookie")) ==> jar.cookie == Get(responseHeaders, "set-cookie")
    ensures !Truthy(Get(responseHeaders, "set-cookie")) ==> jar.cookie == old(jar.cookie)
  {
    var cookie := Get(responseHeaders, "set-cookie");
    if Truthy(cookie) {
      jar.cookie := cookie;
    }
  }

  /**
   * kettle.tests.request.io.setCookie(cookieJar, request): sets the "cookie"
   * header on the raw request exactly when the jar holds a cookie, under the
   * same test HttpSend applies to its Cookie header.
   */
  method SetCookie(jar: CookieJar, request: RawRequest)
    modifies request
    ensures request.headersSet ==
      old(request.headersSet) + if Truthy(jar.cookie) then [("cookie", jar.cookie)] else []
  {
    if Truthy(jar.cookie) {
      request.SetRequestHeader("cookie", jar.cookie);
    }
  }

  // ---------------------------------------------------------------------------
  // The socket.io connection URL
  // ---------------------------------------------------------------------------

  /**
   * The URL kettle.tests.request.io.connect opens: the copied options' host
   * name, ":", the port and the templated path, joined by string `+`.
   */
  function ConnectUrl(requestOptions: JsObject, termMap: Value, template: (Value, Value) -> Value): (url: string)
    reads requestOptions
    ensures var host := ToStr(Get(requestOptions.fields, "hostname"));
      |host| + 1 <= |url| && url[..|host| + 1] == host + ":"
    ensures var path := ToStr(template(Get(requestOptions.fields, "path"), termMap));
      |path| <= |url| && url[|url| - |path|..] == path
  {
    var options := requestOptions.fields;
    var host := ToStr(Get(options, "hostname"));
    var path := ToStr(template(Get(options, "path"), termMap));
    var url := host + ":" + ToStr(Get(options, "port")) + path;
    assert url[..|host| + 1] == host + ":";
    assert url[|url| - |path|..] == path;
    url
  }

  /**
   * With a string host name, a numeric port below 10^21 (the range in which
   * JavaScript prints a number in plain decimal) and a templated path that
   * is a string, the URL is exactly `hostname:port` followed by the path,
   * and the digits between them denote the port.
   */
  lemma ConnectUrlShape(requestOptions: JsObject, termMap: Value, template: (Value, Value) -> Value,
                        host: string, port: nat, path: string)
    requires Get(requestOptions.fields, "hostname") == Str(host)
    requires Get(requestOptions.fields, "port") == Num(port)
    requires port < 1000000000000000000000
    requires template(Get(requestOptions.fields, "path"), termMap) == Str(path)
    ensures var url := ConnectUrl(requestOptions, termMap, template);
      && url == host + ":" + NatDigits(port) + path
      && var digits := url[|host| + 1..|url| - |path|];
      && (forall i :: 0 <= i < |digits| ==> '0' <= digits[i] <= '9')
      && DecimalValue(digits) == port
  {
    var url := ConnectUrl(requestOptions, termMap, template);
    assert url == host + ":" + NatDigits(port) + path;
    assert url[|host| + 1..|url| - |path|] == NatDigits(port);
    DecimalRoundTrip(port);
  }

  /** The default request options of a socket.io test request (the `port` and `hostname` defaults). */
  const DefaultPort: nat := 8080
  const DefaultIoHostname: string := "ws://localhost"

  /**
   * An example of ConnectUrlShape: with the default host name and port, the
   * URL is "ws://localhost:8080" followed by the templated path.
   */
  lemma DefaultIoUrl(requestOptions: JsObject, termMap: Value, template: (Value, Value) -> Value, path: string)
    requires Get(requestOptions.fields, "hostname") == Str(DefaultIoHostname)
    requires Get(requestOptions.fields, "port") == Num(DefaultPort)
    requires template(Get(requestOptions.fields, "path"), termMap) == Str(path)
    ensures ConnectUrl(requestOptions, termMap, template) == "ws://localhost:8080" + path
  {
    ConnectUrlShape(requestOptions, termMap, template, DefaultIoHostname, DefaultPort, path);
    DefaultPortDigits();
  }

  /** The default port prints as "8080". */
  lemma DefaultPortDigits()
    ensures NatDigits(DefaultPort) == "8080"
  {
    assert NatDigits(8) == "8";
    assert NatDigits(80) == "80";
    assert NatDigits(808) == "808";
  }
}
