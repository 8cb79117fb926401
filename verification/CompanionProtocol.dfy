/** The companion channel's messages and the rule for what a grant permits. Strings are the byte sequences of the
    program; a message authentication code and an operation digest are free constructors. */
module CompanionProtocol {
  import opened Basics

  const MAX_PAYLOAD := 131072
  const SECOND := 1_000_000_000
  const LEASE := 45 * SECOND
  const PAIRING := 300 * SECOND

  datatype Device = Device(id: string, host: string, user: string, os: string, workspace: string)

  datatype Grant = Grant(generation: int, space: string, conversation: string, files: bool, shell: bool, model: bool, destination: string)

  /** Raw argument text: `compact` is the form the encoder writes, the same for texts that differ in layout only. */
  datatype Arguments = Valid(text: string, compact: string) | Invalid(text: string)

  datatype Operation = Operation(id: string, run: string, tool: string, arguments: Arguments)

  /** What the operation digest covers: every field, the arguments in compact form. */
  datatype Digest = Sha256(id: string, run: string, tool: string, compact: string)

  datatype ReceiptState = Queued | Dispatched | Completed | Unknown | NotExecuted | Other(text: string)

  /** `value` is "" where the program has none. */
  datatype Receipt = Receipt(task: string, taskRun: string, id: string, device: string, conversation: string, run: string,
                             state: ReceiptState, value: string, error: string)

  datatype ViewState = Pairing | AwaitingAuthorization | Connected | Disconnected | Revoked

  datatype View = View(id: string, state: ViewState, device: Device, grant: Option<Grant>, receipts: seq<Receipt>)

  datatype Pair = Pair(id: string, code: string, secret: string)

  datatype AttachRequest = AttachRequest(id: string, code: string, device: Device)

  /** The body of an exchange, before decoding. */
  datatype Body = Malformed(text: string) | Exchange(receipt: Option<Receipt>)

  datatype Mac = Mac(token: string, origin: string, id: string, sequence: nat, body: Body) | Forged(text: string)

  datatype Delivery = Delivery(grant: Option<Grant>, operation: Option<Operation>)

  function DigestOf(op: Operation): Digest
    requires op.arguments.Valid?
  {
    Sha256(op.id, op.run, op.tool, op.arguments.compact)
  }

  /** What a grant permits; `model` says that the language model asks, not the user. */
  predicate Allowed(g: Grant, tool: string, model: bool) {
    if model && !g.model then false
    else if tool in {"list", "read", "stat", "prepare_write", "prepare_edit"} then g.files
    else if tool in {"commit", "discard"} then g.files && !model
    else if tool in {"shell", "task"} then g.shell
    else false
  }

  /** Whatever the model may do the user may do, and the model can neither commit nor discard. */
  lemma ModelIsNarrower(g: Grant, tool: string)
    ensures Allowed(g, tool, true) <==> g.model && Allowed(g, tool, false) && tool != "commit" && tool != "discard"
  {
    assert "commit"[0] == 'c' && "discard"[0] == 'd' && "list"[0] == 'l' && "read"[0] == 'r' && "stat"[0] == 's' && "prepare_write"[0] == 'p'
      && "prepare_edit"[0] == 'p' && "shell"[0] == 's' && "task"[0] == 't';
  }
}
