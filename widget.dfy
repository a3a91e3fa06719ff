/**
  The two helpers of the widget shell: `getNested`, which reads a value out of the
  settings blob along a dot-separated path, and `validateSettings`, the ordered
  guards run on the settings form.
 */
module Widget {
  import opened JsValue
  import opened JsText
  import opened Kommo

  // ---------------------------------------------------------------------------
  // getNested

  /** The segments of a path: an absent or empty path has none. */
  function Segments(desc: Option<string>): seq<string> {
    match desc
    case None => []
    case Some(d) => if d == "" then [] else Split(d, '.')
  }

  /** One segment applied to a truthy value. A segment the pattern reads as
      `name[idx]` indexes `obj[name]`; reading an index of `null` throws. */
  function Step(obj: Value, comp: string): Outcome<Value> {
    match Exec(comp, 0)
    case Some(m) =>
      var base := Get(obj, m.name);
      if base.Undefined? then Returned(Null)
      else if base.Null? then Threw
      else Returned(Get(base, m.index))
    case None => Returned(Get(obj, comp))
  }

  /** The walk: segments left to right, stopping as soon as the value is falsy. */
  function Walk(obj: Value, segs: seq<string>): Outcome<Value>
    decreases |segs|
  {
    if segs == [] || !Truthy(obj) then Returned(obj)
    else match Step(obj, segs[0])
      case Threw => Threw
      case Returned(next) => Walk(next, segs[1..])
  }

  /** A supplied default (anything but `undefined`) replaces a null or undefined result. */
  function Defaulted(v: Value, dflt: Value): Value {
    if !dflt.Undefined? && Nullish(v) then dflt else v
  }

  /** What `getNested(obj, desc, value)` returns. */
  function NestedLookup(obj: Value, desc: Option<string>, dflt: Value): Outcome<Value> {
    match Walk(obj, Segments(desc))
    case Threw => Threw
    case Returned(v) => Returned(Defaulted(v, dflt))
  }

  /** `getNested(obj, desc, value)`: shifts segments off the list and reassigns the
      current value until the list is empty or the value is falsy. */
  method GetNested(obj: Value, desc: Option<string>, dflt: Value) returns (r: Outcome<Value>)
    ensures r == NestedLookup(obj, desc, dflt)
  {
    var arr := Segments(desc);
    var cur := obj;
    while |arr| > 0 && Truthy(cur)
      invariant Walk(cur, arr) == Walk(obj, Segments(desc))
      decreases |arr|
    {
      var comp := arr[0];
      arr := arr[1..];
      var m := Exec(comp, 0);
      if m.Some? {
        var base := Get(cur, m.value.name);
        if !base.Undefined? {
          if base.Null? {
            return Threw;
          }
          cur := Get(base, m.value.index);
        } else {
          cur := Null;
        }
        continue;
      }
      cur := Get(cur, comp);
    }
    if !dflt.Undefined? && Nullish(cur) {
      return Returned(dflt);
    }
    return Returned(cur);
  }

  /** An absent or empty path returns the object itself (or the default, when the
      object is null or undefined and a default is given). */
  lemma EmptyPath(obj: Value, desc: Option<string>, dflt: Value)
    requires desc == None || desc == Some("")
    ensures NestedLookup(obj, desc, dflt) == Returned(Defaulted(obj, dflt))
    ensures dflt.Undefined? ==> NestedLookup(obj, desc, dflt) == Returned(obj)
  {
  }

  /** The walk goes left to right: a path `p + q` is `p` first, then `q` from there. */
  lemma {:induction false} WalkAppend(obj: Value, p: seq<string>, q: seq<string>)
    ensures Walk(obj, p + q) == match Walk(obj, p)
                                case Threw => Threw
                                case Returned(v) => Walk(v, q)
    decreases |p|
  {
    if p == [] {
      assert p + q == q;
    } else if Truthy(obj) {
      assert (p + q)[0] == p[0];
      assert (p + q)[1..] == p[1..] + q;
      match Step(obj, p[0])
      case Threw =>
      case Returned(next) => WalkAppend(next, p[1..], q);
    }
  }

  /** Once the walk reaches a falsy value, segments still left change nothing. */
  lemma WalkStopsAtFalsy(obj: Value, p: seq<string>, q: seq<string>, v: Value)
    requires Walk(obj, p) == Returned(v) && !Truthy(v)
    ensures Walk(obj, p + q) == Returned(v)
  {
    WalkAppend(obj, p, q);
  }

  /** The JavaScript member chain `obj.a.b.c`, which throws on a null or undefined base. */
  function MemberChain(obj: Value, segs: seq<string>): Outcome<Value>
    decreases |segs|
  {
    if segs == [] then Returned(obj)
    else if Nullish(obj) then Threw
    else MemberChain(Get(obj, segs[0]), segs[1..])
  }

  /** Every value the chain passes through before its last segment is truthy. */
  predicate TruthyAlong(obj: Value, segs: seq<string>)
    decreases |segs|
  {
    segs == [] || (Truthy(obj) && TruthyAlong(Get(obj, segs[0]), segs[1..]))
  }

  predicate PlainSegment(seg: string) {
    Free(seg, '.') && Free(seg, '[')
  }

  lemma {:induction false} WalkPlain(obj: Value, segs: seq<string>)
    requires forall i :: 0 <= i < |segs| ==> PlainSegment(segs[i])
    requires TruthyAlong(obj, segs)
    ensures Walk(obj, segs) == MemberChain(obj, segs)
    decreases |segs|
  {
    if segs != [] {
      ExecNoBracket(segs[0], 0);
      WalkPlain(Get(obj, segs[0]), segs[1..]);
    }
  }

  /** A path of plain segments `a.b.c` (no brackets) reads `obj.a.b.c`, as long as the
      values passed on the way are truthy. */
  lemma PlainPath(obj: Value, segs: seq<string>)
    requires |segs| >= 1 && Join(segs, '.') != ""
    requires forall i :: 0 <= i < |segs| ==> PlainSegment(segs[i])
    requires TruthyAlong(obj, segs)
    ensures NestedLookup(obj, Some(Join(segs, '.')), Undefined) == MemberChain(obj, segs)
  {
    SplitJoin(segs, '.');
    WalkPlain(obj, segs);
  }

  /** A path made of one segment `name[idx]` indexes `obj[name]` at `idx`; an undefined
      `obj[name]` yields null and a null one throws. */
  lemma IndexedPath(obj: Value, name: string, idx: string)
    requires Truthy(obj)
    requires name != [] && Free(name, '.')
    requires forall m :: 0 <= m < |name| ==> !IsLineTerminator(name[m])
    requires AllDigits(idx)
    ensures var base := Get(obj, name);
      NestedLookup(obj, Some(name + "[" + idx + "]"), Undefined) ==
        if base.Undefined? then Returned(Null)
        else if base.Null? then Threw
        else Returned(Get(base, idx))
  {
    var seg := name + "[" + idx + "]";
    assert Free(seg, '.') by {
      forall m | 0 <= m < |seg| ensures seg[m] != '.' {
        if m < |name| { assert seg[m] == name[m]; }
        else if |name| < m < |seg| - 1 { assert seg[m] == idx[m - |name| - 1]; }
      }
    }
    SplitPiece(seg, '.', "");
    assert Segments(Some(seg)) == [seg];
    ExecIndexedSegment(name, idx);
    assert [seg][0] == seg && [seg][1..] == [];
    match Step(obj, seg)
    case Threw =>
    case Returned(next) => assert Walk(obj, [seg]) == Walk(next, []);
  }

  /** The default only replaces null or undefined: defined falsy results such as 0
      or "" come back as they are, and without a default the raw result is returned. */
  lemma DefaultOnlyForNullish(obj: Value, desc: Option<string>, dflt: Value, v: Value)
    requires Walk(obj, Segments(desc)) == Returned(v)
    ensures !Nullish(v) ==> NestedLookup(obj, desc, dflt) == Returned(v)
    ensures dflt.Undefined? ==> NestedLookup(obj, desc, dflt) == Returned(v)
    ensures Nullish(v) && !dflt.Undefined? ==> NestedLookup(obj, desc, dflt) == Returned(dflt)
  {
  }

  // ---------------------------------------------------------------------------
  // validateSettings

  /** The guards of `validateSettings`, in the order they run. */
  datatype SettingsError =
    | InvalidParams
    | WebhookUrlRequired
    | OpenAiKeyRequired
    | AgentRequired
    | InvalidWebhookUrl

  /** The message shown for each failed guard. */
  function ErrorMessage(e: SettingsError): string {
    match e
    case InvalidParams => "Par\U{00E2}metros inv\U{00E1}lidos"
    case WebhookUrlRequired => "URL do webhook \U{00E9} obrigat\U{00F3}ria"
    case OpenAiKeyRequired => "Chave da API OpenAI \U{00E9} obrigat\U{00F3}ria"
    case AgentRequired => "Agente deve ser selecionado"
    case InvalidWebhookUrl => "URL do webhook inv\U{00E1}lida"
  }

  function Rank(e: SettingsError): nat {
    match e
    case InvalidParams => 0
    case WebhookUrlRequired => 1
    case OpenAiKeyRequired => 2
    case AgentRequired => 3
    case InvalidWebhookUrl => 4
  }

  datatype Verdict = Accepted | Rejected(error: SettingsError) | ThrewTypeError

  /** `!v || v.trim() === ''`; `trim` is called on truthy values, and only strings have it. */
  function Blank(v: Value): Outcome<bool> {
    if !Truthy(v) then Returned(true)
    else if v.Str? then Returned(Trim(v.s) == "")
    else Threw
  }

  /** `typeof params === 'object'` for a truthy value: arrays and objects. */
  predicate IsObject(v: Value) {
    v.Arr? || v.Obj?
  }

  /** A field value on which `.trim()` throws: truthy, but not a string. */
  predicate Untrimmable(v: Value) {
    Truthy(v) && !v.Str?
  }

  /** `validateSettings(params)` */
  function ValidateSettings(params: Value, parse: UrlParser): (r: Verdict)
    ensures r == Accepted ==>
      && IsObject(params)
      && Get(params, "webhook_url").Str?
      && Get(params, "openai_key").Str?
      && Get(params, "selected_agent").Str?
    ensures r == ThrewTypeError ==>
      && IsObject(params)
      && (|| Untrimmable(Get(params, "webhook_url"))
          || Untrimmable(Get(params, "openai_key"))
          || Untrimmable(Get(params, "selected_agent")))
    ensures r == Rejected(InvalidParams) <==> !Truthy(params) || !IsObject(params)
  {
    if !Truthy(params) || !IsObject(params) then Rejected(InvalidParams)
    else match Blank(Get(params, "webhook_url"))
      case Threw => ThrewTypeError
      case Returned(true) => Rejected(WebhookUrlRequired)
      case Returned(false) =>
    match Blank(Get(params, "openai_key"))
      case Threw => ThrewTypeError
      case Returned(true) => Rejected(OpenAiKeyRequired)
      case Returned(false) =>
    match Blank(Get(params, "selected_agent"))
      case Threw => ThrewTypeError
      case Returned(true) => Rejected(AgentRequired)
      case Returned(false) =>
    if !ValidateWebhookUrl(Get(params, "webhook_url").s, parse) then Rejected(InvalidWebhookUrl)
    else Accepted
  }

  /** A string holding at least one character that `trim` keeps. */
  predicate Filled(v: Value) {
    v.Str? && !AllWhitespace(v.s)
  }

  /** Guard `e` on its own: Returned(true) when it fails, Threw when it throws. */
  function GuardFails(params: Value, e: SettingsError, parse: UrlParser): Outcome<bool> {
    match e
    case InvalidParams => Returned(!Truthy(params) || !IsObject(params))
    case WebhookUrlRequired => Blank(Get(params, "webhook_url"))
    case OpenAiKeyRequired => Blank(Get(params, "openai_key"))
    case AgentRequired => Blank(Get(params, "selected_agent"))
    case InvalidWebhookUrl =>
      Returned(!ValidateWebhookUrl(ToJsString(Get(params, "webhook_url")), parse))
  }

  /** What `showValidationError` puts on screen for a verdict: the failed guard's
      message, and nothing when the settings pass or the check throws. */
  function ShownError(v: Verdict): Option<string> {
    if v.Rejected? then Some(ErrorMessage(v.error)) else None
  }

  /** The message on screen names the guard: it is guard e's message exactly when
      guard e is the first one to fail. */
  lemma ShownErrorDecides(params: Value, parse: UrlParser, e: SettingsError)
    ensures ShownError(ValidateSettings(params, parse)) == Some(ErrorMessage(e)) <==>
      GuardFails(params, e, parse) == Returned(true)
      && forall e' :: Rank(e') < Rank(e) ==> GuardFails(params, e', parse) == Returned(false)
  {
    FirstFailingGuardDecides(params, parse, e);
  }

  lemma BlankFilled(v: Value)
    ensures Blank(v) == Returned(false) <==> Filled(v)
  {
    if v.Str? {
      TrimBlank(v.s);
    }
  }

  /** The settings pass exactly when params is an object whose three fields are filled
      strings and whose webhook URL passes the URL check. */
  lemma ValidateSettingsAccepts(params: Value, parse: UrlParser)
    ensures ValidateSettings(params, parse) == Accepted <==>
      IsObject(params)
      && Filled(Get(params, "webhook_url"))
      && Filled(Get(params, "openai_key"))
      && Filled(Get(params, "selected_agent"))
      && ValidateWebhookUrl(Get(params, "webhook_url").s, parse)
  {
    BlankFilled(Get(params, "webhook_url"));
    BlankFilled(Get(params, "openai_key"));
    BlankFilled(Get(params, "selected_agent"));
  }

  /** A missing or whitespace-only field fails its guard whatever comes after it. */
  lemma ValidateSettingsBlank(params: Value, parse: UrlParser)
    ensures !IsObject(params) ==> ValidateSettings(params, parse) == Rejected(InvalidParams)
    ensures IsObject(params) && (Get(params, "webhook_url").Undefined?
              || (Get(params, "webhook_url").Str? && AllWhitespace(Get(params, "webhook_url").s)))
            ==> ValidateSettings(params, parse) == Rejected(WebhookUrlRequired)
  {
    if Get(params, "webhook_url").Str? {
      TrimBlank(Get(params, "webhook_url").s);
    }
  }

  /** The first failing guard alone decides the message: the verdict is Rejected(e)
      exactly when guard e fails and every guard before it passes. */
  lemma FirstFailingGuardDecides(params: Value, parse: UrlParser, e: SettingsError)
    ensures ValidateSettings(params, parse) == Rejected(e) <==>
      GuardFails(params, e, parse) == Returned(true)
      && forall e' :: Rank(e') < Rank(e) ==> GuardFails(params, e', parse) == Returned(false)
  {
    if ValidateSettings(params, parse) == Rejected(e) {
      forall e' | Rank(e') < Rank(e)
        ensures GuardFails(params, e', parse) == Returned(false)
      {
        match e'
        case InvalidParams =>
        case WebhookUrlRequired =>
        case OpenAiKeyRequired =>
        case AgentRequired =>
        case InvalidWebhookUrl =>
      }
    }
    if GuardFails(params, e, parse) == Returned(true)
       && forall e' :: Rank(e') < Rank(e) ==> GuardFails(params, e', parse) == Returned(false) {
      var g0 := GuardFails(params, InvalidParams, parse);
      var g1 := GuardFails(params, WebhookUrlRequired, parse);
      var g2 := GuardFails(params, OpenAiKeyRequired, parse);
      var g3 := GuardFails(params, AgentRequired, parse);
      if e == InvalidWebhookUrl {
        assert Get(params, "webhook_url").Str?;
      }
    }
  }
}
