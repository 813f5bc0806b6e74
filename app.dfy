/**
 The reply path of the WhatsApp app (app_whatsapp.py): the text of a reply is
 extracted from whatever the agent returned, a falsy reply is replaced by a
 fixed apology, and the destination is put into `whatsapp:` form before the
 channel sends it.
 */
module App {
  import opened Values
  import Channel

  /** The keys tried, in order, on the last message of an agent state. */
  const MessageKeys: seq<string> := ["content", "text", "message"]

  /** The reply sent when no text could be extracted. The source file holds
      this literal with its dash mis-encoded, as three characters. */
  const FallbackReply: string := "Sorry \U{E2}\U{20AC}\U{201D} I couldn't generate a reply right now."

  /** The first string value in `d` under `keys`, trying the keys in order. */
  function FirstStrAt(d: map<string, Value>, keys: seq<string>): (r: Option<Value>)
    ensures r.Some? ==> r.value.Str?
  {
    if keys == [] then None
    else if HasStrAt(d, keys[0]) then Some(d[keys[0]])
    else FirstStrAt(d, keys[1..])
  }

  /** First match: the value at the first key holding a string is found. */
  lemma {:induction false} FirstStrAtFirstMatch(d: map<string, Value>, keys: seq<string>, i: nat)
    requires i < |keys| && HasStrAt(d, keys[i])
    requires forall j :: 0 <= j < i ==> !HasStrAt(d, keys[j])
    ensures FirstStrAt(d, keys) == Some(d[keys[i]])
  {
    if i > 0 {
      assert !HasStrAt(d, keys[0]);
      forall j | 0 <= j < i - 1 ensures !HasStrAt(d, keys[1..][j]) {
        assert keys[1..][j] == keys[j + 1];
      }
      FirstStrAtFirstMatch(d, keys[1..], i - 1);
    }
  }

  /** Nothing is found exactly when no key holds a string. */
  lemma {:induction false} FirstStrAtNone(d: map<string, Value>, keys: seq<string>)
    ensures FirstStrAt(d, keys) == None <==> forall j :: 0 <= j < |keys| ==> !HasStrAt(d, keys[j])
  {
    if keys != [] {
      FirstStrAtNone(d, keys[1..]);
      if !HasStrAt(d, keys[0]) {
        forall j | 0 <= j < |keys| && j > 0 ensures keys[j] == keys[1..][j - 1] { }
      }
    }
  }

  /** Lines 22-28: the first part of a non-empty list, when it is a dict with
      a string "text" or, failing that, a string "content". */
  function FromFirstPart(items: seq<Value>): Option<Value>
  {
    if items == [] || !items[0].Dict? then None
    else if HasStrAt(items[0].entries, "text") then Some(items[0].entries["text"])
    else if HasStrAt(items[0].entries, "content") then Some(items[0].entries["content"])
    else None
  }

  /** The last element of a non-empty list under "messages", if there is one. */
  function LastMessage(d: map<string, Value>): Option<Value>
  {
    if "messages" in d && d["messages"].List? && d["messages"].items != [] then
      Some(d["messages"].items[|d["messages"].items| - 1])
    else None
  }

  /** Lines 33-40: the `content` attribute of the last message, whatever its
      type, or else that message's first string under "content", "text",
      "message". */
  function FromMessages(d: map<string, Value>): Option<Value>
  {
    match LastMessage(d)
    case None => None
    case Some(last) =>
      if HasContent(last) then last.content
      else if last.Dict? then FirstStrAt(last.entries, MessageKeys)
      else None
  }

  /** Lines 31-44: the messages answer, else the top-level string "text",
      else the top-level string "content". */
  function FromDict(d: map<string, Value>): Option<Value>
  {
    var fromMessages := FromMessages(d);
    if fromMessages.Some? then fromMessages
    else if HasStrAt(d, "text") then Some(d["text"])
    else if HasStrAt(d, "content") then Some(d["content"])
    else None
  }

  /** Whether the answer for `resp` is read from a message object's `content`
      attribute, the one place where the result need not be a string. */
  predicate FromMessageObject(resp: Value)
  {
    resp.Dict? && LastMessage(resp.entries).Some? && HasContent(LastMessage(resp.entries).value)
  }

  /** `extract_text_from_response(resp)`: total, and a string answer except
      where it was read from a message object's `content` attribute. */
  function ExtractText(resp: Value): (r: Option<Value>)
    ensures r.Some? && !FromMessageObject(resp) ==> r.value.Str?
    ensures FromMessageObject(resp) ==> r == LastMessage(resp.entries).value.content
  {
    match resp
    case Str(_) => Some(resp)
    case List(items) => FromFirstPart(items)
    case Dict(d) => FromDict(d)
    case Obj(c) => if c.Some? && c.value.Str? then c else None
    case Other(_) => None
  }

  // A reference reading of the same function, written as the source reads:
  // every `return` of lines 18-48 becomes a candidate guarded by its own
  // condition, and the first candidate that applies wins.

  function FirstSome(cs: seq<Option<Value>>): Option<Value>
  {
    if cs == [] then None else if cs[0].Some? then cs[0] else FirstSome(cs[1..])
  }

  /** `d[key]` when it is a string: `key in d and isinstance(d[key], str)`. */
  function StrAt(d: map<string, Value>, key: string): Option<Value>
  {
    if HasStrAt(d, key) then Some(d[key]) else None
  }

  function Candidates(resp: Value): seq<Option<Value>>
  {
    var first := if resp.List? && resp.items != [] && resp.items[0].Dict? then resp.items[0].entries else map[];
    var last := if resp.Dict? then LastMessage(resp.entries) else None;
    var lastEntries := if last.Some? && !HasContent(last.value) && last.value.Dict? then last.value.entries else map[];
    var top := if resp.Dict? then resp.entries else map[];
    [ if resp.Str? then Some(resp) else None,                          // line 19
      StrAt(first, "text"),                                            // line 26
      StrAt(first, "content"),                                         // line 28
      if last.Some? && HasContent(last.value) then last.value.content else None,  // line 36
      StrAt(lastEntries, "content"),                                   // line 40, first key
      StrAt(lastEntries, "text"),                                      // line 40, second key
      StrAt(lastEntries, "message"),                                   // line 40, third key
      StrAt(top, "text"),                                              // line 42
      StrAt(top, "content"),                                           // line 44
      if HasContent(resp) && resp.content.value.Str? then resp.content else None ]  // line 48
  }

  /** `ExtractText` is the first-match reading of the source's returns, in
      the source's order. */
  lemma ExtractTextIsFirstMatch(resp: Value)
    ensures ExtractText(resp) == FirstSome(Candidates(resp))
  {
    var cs := Candidates(resp);
    match resp {
      case Str(_) =>
      case List(items) => FirstMatchList(items);
      case Dict(d) => FirstMatchDict(d);
      case Obj(c) =>
        FirstSomeSkip(cs, if c.Some? && c.value.Str? then 9 else |cs|);
      case Other(_) => FirstSomeSkip(cs, |cs|);
    }
  }

  lemma FirstMatchList(items: seq<Value>)
    ensures ExtractText(List(items)) == FirstSome(Candidates(List(items)))
  {
    var cs := Candidates(List(items));
    if items != [] && items[0].Dict? && HasStrAt(items[0].entries, "text") {
      FirstSomeSkip(cs, 1);
      assert cs[1..][0] == cs[1];
    } else if items != [] && items[0].Dict? && HasStrAt(items[0].entries, "content") {
      FirstSomeSkip(cs, 2);
      assert cs[2..][0] == cs[2];
    } else {
      FirstSomeSkip(cs, |cs|);
    }
  }

  lemma FirstMatchDict(d: map<string, Value>)
    ensures ExtractText(Dict(d)) == FirstSome(Candidates(Dict(d)))
  {
    var cs := Candidates(Dict(d));
    var last := LastMessage(d);
    var k: nat;
    if last.Some? && HasContent(last.value) {
      k := 3;
    } else if last.Some? && last.value.Dict? && HasStrAt(last.value.entries, "content") {
      k := 4;
      FirstStrAtFirstMatch(last.value.entries, MessageKeys, 0);
    } else if last.Some? && last.value.Dict? && HasStrAt(last.value.entries, "text") {
      k := 5;
      FirstStrAtFirstMatch(last.value.entries, MessageKeys, 1);
    } else if last.Some? && last.value.Dict? && HasStrAt(last.value.entries, "message") {
      k := 6;
      FirstStrAtFirstMatch(last.value.entries, MessageKeys, 2);
    } else {
      if last.Some? && last.value.Dict? {
        FirstStrAtNone(last.value.entries, MessageKeys);
      }
      k := if HasStrAt(d, "text") then 7 else if HasStrAt(d, "content") then 8 else |cs|;
    }
    FirstSomeSkip(cs, k);
    assert k < |cs| ==> cs[k..][0] == cs[k];
  }

  /** Leading candidates that do not apply can be skipped. */
  lemma {:induction false} FirstSomeSkip(cs: seq<Option<Value>>, k: nat)
    requires k <= |cs|
    requires forall j :: 0 <= j < k ==> cs[j].None?
    ensures FirstSome(cs) == FirstSome(cs[k..])
  {
    if k > 0 {
      assert cs[1..][k - 1..] == cs[k..];
      FirstSomeSkip(cs[1..], k - 1);
    }
  }

  /** A plain string is returned unchanged. */
  lemma PlainString(s: string)
    ensures ExtractText(Str(s)) == Some(Str(s))
  {
  }

  /** Only the first element of a list is inspected: a string "text" wins
      over a string "content", a non-string "text" falls through, and nothing
      after the first element matters. */
  lemma ListFirstPart(first: map<string, Value>, rest: seq<Value>)
    ensures HasStrAt(first, "text") ==> ExtractText(List([Dict(first)] + rest)) == Some(first["text"])
    ensures !HasStrAt(first, "text") && HasStrAt(first, "content") ==>
      ExtractText(List([Dict(first)] + rest)) == Some(first["content"])
    ensures !HasStrAt(first, "text") && !HasStrAt(first, "content") ==>
      ExtractText(List([Dict(first)] + rest)) == None
  {
  }

  /** A list whose first element is not a dict, and the empty list, give nothing. */
  lemma ListOtherwise(items: seq<Value>)
    requires items == [] || !items[0].Dict?
    ensures ExtractText(List(items)) == None
  {
  }

  /** In an agent state only the last message is consulted; its `content`
      attribute is returned whatever its type. */
  lemma MessagesLastObject(d: map<string, Value>, earlier: seq<Value>, c: Value)
    requires "messages" in d && d["messages"] == List(earlier + [Obj(Some(c))])
    ensures ExtractText(Dict(d)) == Some(c)
  {
  }

  /** A last message that is a dict yields its first string under "content",
      "text", "message", in that order. */
  lemma {:induction false} MessagesLastDict(d: map<string, Value>, earlier: seq<Value>, last: map<string, Value>, i: nat)
    requires "messages" in d && d["messages"] == List(earlier + [Dict(last)])
    requires i < |MessageKeys| && HasStrAt(last, MessageKeys[i])
    requires forall j :: 0 <= j < i ==> !HasStrAt(last, MessageKeys[j])
    ensures ExtractText(Dict(d)) == Some(last[MessageKeys[i]])
  {
    FirstStrAtFirstMatch(last, MessageKeys, i);
  }

  /** When the messages branch yields nothing (no "messages", not a list, an
      empty list, or a last message with no matching string), the dict falls
      through to its own string "text", then its own string "content". */
  lemma DictFallThrough(d: map<string, Value>)
    requires FromMessages(d) == None
    ensures HasStrAt(d, "text") ==> ExtractText(Dict(d)) == Some(d["text"])
    ensures !HasStrAt(d, "text") && HasStrAt(d, "content") ==> ExtractText(Dict(d)) == Some(d["content"])
    ensures !HasStrAt(d, "text") && !HasStrAt(d, "content") ==> ExtractText(Dict(d)) == None
  {
  }

  /** An object's `content` attribute is returned only when it is a string. */
  lemma ObjectContent(c: Option<Value>)
    ensures ExtractText(Obj(c)) == (if c.Some? && c.value.Str? then c else None)
  {
  }

  /** Unmatched shapes give nothing. */
  lemma Unmatched(t: bool)
    ensures ExtractText(Other(t)) == None
    ensures ExtractText(List([])) == None
    ensures ExtractText(Dict(map[])) == None
    ensures ExtractText(Obj(None)) == None
  {
  }

  /** Lines 94-97: the reply is never falsy; a truthy extraction is kept as
      it is, anything else becomes the fixed fallback. */
  function Reply(content: Option<Value>): (r: Value)
    ensures Truthy(r)
    ensures content.Some? && Truthy(content.value) ==> r == content.value
    ensures !(content.Some? && Truthy(content.value)) ==> r == Str(FallbackReply)
  {
    if content.Some? && Truthy(content.value) then content.value else Str(FallbackReply)
  }

  /** `process_message_async` from the agent's answer on: the answer (or the
      exception the agent call raised) and Twilio's `messages.create` are
      given, and the result is what the background task logs before it ends;
      nothing propagates out of the task. The destination is normalised at
      lines 99-103 and again by the channel, which sends it normalised once. */
  function ProcessMessage(answer: Outcome<Value>, fromNumber: string, env: Env,
                          create: Channel.Message -> Outcome<Option<string>>): (r: Outcome<Channel.SendResult>)
    // an agent failure ends the task before anything is sent
    ensures answer.Raised? ==> r == Raised(answer.exc)
    // without a sender number nothing is sent
    ensures answer.Returned? && !EnvSet(env, Channel.FromVar) ==> r == Raised(Channel.MissingFromError)
    // otherwise Twilio gets a truthy body and the sender's number normalised once
    ensures answer.Returned? && EnvSet(env, Channel.FromVar) ==>
      var m := Channel.Message(env[Channel.FromVar], Channel.Normalize(fromNumber), Reply(ExtractText(answer.value)));
      StartsWith(m.to, Channel.Prefix) && Truthy(m.body) &&
      match create(m)
      case Returned(sid) => r == Returned(Channel.SendResult(true, sid))
      case Raised(e) => r == Raised(e)
  {
    match answer
    case Raised(e) => Raised(e)
    case Returned(a) =>
      Channel.NormalizeIdempotent(fromNumber);
      Channel.SendMessage(env, Channel.Normalize(fromNumber), Reply(ExtractText(a)), create)
  }
}
