/** The instruction-translation layer of src/umm.js: the completion handle an outgoing
    event carries, the translation of a bot instruction into an outgoing Twilio event,
    and the guarded registration of the connector with the bot's message layer. */
module Umm {
  import opened JsValues

  /** The state of the promise stored in an event's `_promise`. */
  datatype Settlement = Pending | Resolved | Rejected

  /** A completion handle. The `_resolve` and `_reject` functions an event carries are
      represented by references to the handle they settle. */
  class Completion {
    var state: Settlement

    constructor ()
      ensures state == Pending
    {
      state := Pending;
    }

    /** Calling the resolve function: only a pending promise changes state. */
    method Resolve()
      modifies this
      ensures state == if old(state) == Pending then Resolved else old(state)
    {
      if state == Pending {
        state := Resolved;
      }
    }
  }

  /** A bus event: its plain properties, and the three completion fields that
      `PromisifyEvent` attaches (`_promise`, `_resolve`, `_reject`). The completion
      fields are kept apart from `props`, so `props` stands for the other properties
      only: an event whose plain properties include one of those three names is not
      represented. */
  class Event {
    var props: Props
    var promise: Completion?
    var resolve: Completion?
    var reject: Completion?

    constructor (props: Props)
      ensures this.props == props
      ensures promise == null && resolve == null && reject == null
    {
      this.props := props;
      promise, resolve, reject := null, null, null;
    }
  }

  /** A plain JavaScript object whose owner may mutate it (the caller's instruction). */
  class JsObject {
    var props: Props

    constructor (props: Props)
      ensures this.props == props
    {
      this.props := props;
    }

    /** `Object.assign({}, source)`: a shallow copy. */
    constructor Copy(source: JsObject)
      ensures props == source.props
    {
      props := source.props;
    }

    /** `delete o[key]`. */
    method Delete(key: string)
      modifies this
      ensures props == old(props) - {key}
    {
      props := props - {key};
    }
  }

  /** Attaches a fresh pending completion handle to an event that has none; an event that
      already has a `_promise` is left exactly as it was. The event itself is returned. */
  method PromisifyEvent(event: Event) returns (r: Event)
    modifies event
    ensures r == event && event.promise != null
    ensures old(event.promise) != null ==> unchanged(event)
    ensures old(event.promise) == null ==>
      && event.props == old(event.props)
      && fresh(event.promise) && event.promise.state == Pending
      && event.resolve == event.promise && event.reject == event.promise
  {
    if event.promise == null {
      var handle := new Completion();
      event.promise := handle;
      event.resolve := handle;
      event.reject := handle;
    }
    r := event;
  }

  /** The options channel-neutral instructions may carry; `typing` is the only one. */
  const OptionsList: seq<string> := ["typing"]

  /** `_.pick(instruction, optionsList)`: the options the instruction has, with their values. */
  function PickOptions(instruction: Props): (options: Props)
    ensures options.Keys == instruction.Keys * {"typing"}
    ensures forall k :: k in options ==> options[k] == instruction[k]
  {
    map k | k in instruction && k in OptionsList :: instruction[k]
  }

  /** The shallow copy of the instruction with every option deleted from it. The caller's
      object is not modified (there is no `modifies` clause). The copy is never read again
      by `processOutgoing`. */
  method StripOptions(instruction: JsObject) returns (ins: JsObject)
    ensures fresh(ins)
    ensures ins.props == instruction.props - {"typing"}
  {
    ins := new JsObject.Copy(instruction);
    for i := 0 to |OptionsList|
      invariant ins.props == instruction.props - (set j | 0 <= j < i :: OptionsList[j])
    {
      ins.Delete(OptionsList[i]);
    }
    assert OptionsList[0] == "typing";
    assert (set j | 0 <= j < |OptionsList| :: OptionsList[j]) == {"typing"};
  }

  /** The message of the Error thrown for an instruction with no recognised content. */
  function UnrecognizedMessage(blocName: string, rendered: string): string {
    "Unrecognized instruction in Twilio in bloc '" + blocName + "': " + rendered
  }

  /** The outgoing event that `processOutgoing` builds for `instruction` (before the
      completion handle is attached), or the Error it throws. `number` is what
      `extractNumber` makes of the originating event and `inspect` stands for
      `util.inspect`. Only a nil `text` is refused; an empty string is recognised. */
  function Translate(number: Value, blocName: string, inspect: Props -> string, instruction: Props): (r: Result<Props>)
    ensures r.Ok? <==> !IsNil(Get(instruction, "text"))
    ensures r.Ok? ==>
      && r.value.Keys == {"platform", "type", "user", "raw", "text"}
      && r.value["platform"] == Str("twilio")
      && r.value["type"] == Str("text")
      && r.value["text"] == instruction["text"]
      && r.value["user"] == Obj(map["id" := number, "number" := number])
    ensures r.Ok? ==>
      && r.value["raw"].Obj?
      && r.value["raw"].props.Keys == {"to", "message"} + instruction.Keys * {"typing"}
      && r.value["raw"].props["to"] == number
      && r.value["raw"].props["message"] == instruction["text"]
      && ("typing" in instruction ==> r.value["raw"].props["typing"] == instruction["typing"])
    ensures r.Err? ==> r.error == UnrecognizedMessage(blocName, inspect(instruction))
  {
    var options := PickOptions(instruction);
    var text := Get(instruction, "text");
    if !IsNil(text) then
      Ok(map[
        "platform" := Str("twilio"),
        "type" := Str("text"),
        "user" := Obj(map["id" := number, "number" := number]),
        "raw" := Obj(map["to" := number, "message" := text] + options),
        "text" := text])
    else
      Err(UnrecognizedMessage(blocName, inspect(instruction)))
  }

  /** `processOutgoing({event, blocName, instruction})`: strips the options from a copy of
      the instruction, then either returns the translated event, carrying a fresh pending
      completion handle, or throws. Neither the originating event nor the instruction is
      modified. */
  method ProcessOutgoing(event: Event, blocName: string, instruction: JsObject,
                         extractNumber: Props -> Value, inspect: Props -> string)
    returns (r: Result<Event>)
    ensures var t := Translate(extractNumber(event.props), blocName, inspect, instruction.props);
      && (r.Ok? <==> t.Ok?)
      && (r.Ok? ==> fresh(r.value) && r.value.props == t.value)
      && (r.Ok? ==> fresh(r.value.promise) && r.value.promise.state == Pending)
      && (r.Ok? ==> r.value.resolve == r.value.promise == r.value.reject)
      && (r.Err? ==> r.error == t.error)
  {
    var _ := StripOptions(instruction);
    if !IsNil(Get(instruction.props, "text")) {
      var number := extractNumber(event.props);
      var built := new Event(Translate(number, blocName, inspect, instruction.props).value);
      built := PromisifyEvent(built);
      r := Ok(built);
    } else {
      r := Err(UnrecognizedMessage(blocName, inspect(instruction.props)));
    }
  }

  /** Fields other than `text` and `typing` play no part in a successful translation. */
  lemma TranslateIgnoresOtherFields(number: Value, blocName: string, inspect: Props -> string,
                                    instruction: Props, key: string, v: Value)
    requires key != "text" && key != "typing"
    requires Translate(number, blocName, inspect, instruction).Ok?
    ensures Translate(number, blocName, inspect, instruction[key := v])
         == Translate(number, blocName, inspect, instruction)
  {
    assert PickOptions(instruction[key := v]) == PickOptions(instruction);
  }

  /** The Error names the bloc and includes the rendering of the instruction, whatever
      options the instruction carries. */
  lemma {:induction false} UnrecognizedNamesBloc(number: Value, blocName: string, inspect: Props -> string,
                                                 instruction: Props)
    requires IsNil(Get(instruction, "text"))
    ensures Translate(number, blocName, inspect, instruction).Err?
    ensures Contains(Translate(number, blocName, inspect, instruction).error, blocName)
    ensures Contains(Translate(number, blocName, inspect, instruction).error, inspect(instruction))
  {
    var prefix := "Unrecognized instruction in Twilio in bloc '";
    var middle := "': ";
    var rendered := inspect(instruction);
    var msg := UnrecognizedMessage(blocName, rendered);
    assert msg == prefix + blocName + middle + rendered;
    assert OccursAt(msg, blocName, |prefix|);
    assert OccursAt(msg, rendered, |prefix| + |blocName| + |middle|);
  }

  /** What `registerConnector` is handed. Its `processOutgoing` is `ProcessOutgoing` above
      and is not held here. */
  datatype Connector = Connector(platform: string, templates: seq<Value>)

  /** The outcome of loading the module: the connector was registered, registration was
      skipped, or `bp.umm.registerConnector` was truthy but not callable (a TypeError). */
  datatype Registration = Skipped | Registered(connector: Connector) | NotCallable

  /** `umm && registerConnector && registerConnector({...})` with both read from `bp`. */
  function RegisterConnector(bp: Value): (r: Registration)
    ensures r.Registered? <==> Truthy(Prop(bp, "umm")) && Prop(Prop(bp, "umm"), "registerConnector").Fn?
    ensures r.NotCallable? <==>
      Truthy(Prop(bp, "umm")) && Truthy(Prop(Prop(bp, "umm"), "registerConnector"))
      && !Prop(Prop(bp, "umm"), "registerConnector").Fn?
    ensures r.Registered? ==> r.connector == Connector("twilio", [])
  {
    var umm := Prop(bp, "umm");
    var register := Prop(umm, "registerConnector");
    if !Truthy(umm) || !Truthy(register) then Skipped
    else if register.Fn? then Registered(Connector("twilio", []))
    else NotCallable
  }
}
