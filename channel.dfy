/**
 The outbound WhatsApp channel (src/channels/whatsapp.py): it reads the
 sender number from the environment, puts the destination into Twilio's
 `whatsapp:` form, and hands the message to Twilio, whose `messages.create`
 is a parameter here.
 */
module Channel {
  import opened Values

  const Prefix := "whatsapp:"
  const FromVar := "FROM_WHATSAPP_NUMBER"
  const MissingFromError :=
    RuntimeError("Missing FROM_WHATSAPP_NUMBER environment variable (should include 'whatsapp:+...')")

  /** The arguments of `messages.create`. */
  datatype Message = Message(sender: string, to: string, body: Value)

  /** The dictionary returned on success: `{"ok": True, "sid": ...}`. */
  datatype SendResult = SendResult(ok: bool, sid: Option<string>)

  /** Destination normalisation: prefix `whatsapp:` unless already there. */
  function Normalize(to: string): (r: string)
    ensures StartsWith(r, Prefix)
    ensures r == to <==> StartsWith(to, Prefix)
    ensures r == to || r == Prefix + to
  {
    if StartsWith(to, Prefix) then to else Prefix + to
  }

  /** Normalising twice is normalising once. */
  lemma NormalizeIdempotent(to: string)
    ensures Normalize(Normalize(to)) == Normalize(to)
  {
  }

  /** The message `send_message(to, body)` passes to Twilio, or the error it
      raises before any send when the sender number is missing or empty. */
  function Prepare(env: Env, to: string, body: Value): (r: Outcome<Message>)
    ensures r.Raised? <==> !EnvSet(env, FromVar)
    ensures r.Raised? ==> r.exc == MissingFromError
    ensures r.Returned? ==>
      r.value.sender == env[FromVar] && r.value.to == Normalize(to) && r.value.body == body
  {
    var sender := EnvGet(env, FromVar);
    if !(sender.Some? && sender.value != "") then Raised(MissingFromError)
    else Returned(Message(sender.value, Normalize(to), body))
  }

  /** `WhatsAppChannel.send_message(to, body)`, with Twilio's `messages.create`
      given as `create`: it returns the `sid` attribute of the created message
      (None when it has none) or raises. */
  function SendMessage(env: Env, to: string, body: Value, create: Message -> Outcome<Option<string>>)
    : (r: Outcome<SendResult>)
    ensures !EnvSet(env, FromVar) ==> r == Raised(MissingFromError)
    ensures EnvSet(env, FromVar) ==>
      var m := Message(env[FromVar], Normalize(to), body);
      StartsWith(m.to, Prefix) &&
      match create(m)
      case Returned(sid) => r == Returned(SendResult(true, sid))
      case Raised(e) => r == Raised(e)
  {
    match Prepare(env, to, body)
    case Raised(e) => Raised(e)
    case Returned(m) =>
      match create(m)
      case Returned(sid) => Returned(SendResult(true, sid))
      case Raised(e) => Raised(e)
  }

  /** A successful send always reports `ok` and came from a call whose
      destination carries the prefix; a failed send is never a result value. */
  lemma SendOutcomes(env: Env, to: string, body: Value, create: Message -> Outcome<Option<string>>)
    ensures var r := SendMessage(env, to, body, create);
      (r.Returned? ==> r.value.ok && EnvSet(env, FromVar)) &&
      (r.Raised? <==> !EnvSet(env, FromVar) || create(Message(env[FromVar], Normalize(to), body)).Raised?)
  {
  }
}
