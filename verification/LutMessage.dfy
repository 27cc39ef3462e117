/** What the parties of an SP-LUT run send in a round, and what they wait for. */
module LutMessage {
  import opened Bits
  import opened LutCircuit
  import opened LutSpec
  import opened LutTables
  import C = Circuit

  datatype Buffer = Shares(bits: seq<bool>) | Choices(c: Class, words: seq<nat>) | Answered(c: Class, answers: seq<Entries>)

  /** The size of a buffer, in elements of its kind. */
  datatype Size = ShareBits(n: nat) | ChoiceWords(c: Class, n: nat) | AnswerTables(c: Class, n: nat)

  function SizeOf(b: Buffer): Size {
    match b
    case Shares(bits) => ShareBits(|bits|)
    case Choices(c, words) => ChoiceWords(c, |words|)
    case Answered(c, answers) => AnswerTables(c, |answers|)
  }

  function Sizes(bs: seq<Buffer>): seq<Size> {
    seq(|bs|, i requires 0 <= i < |bs| => SizeOf(bs[i]))
  }

  lemma SizesConcat(a: seq<Buffer>, b: seq<Buffer>)
    ensures Sizes(a + b) == Sizes(a) + Sizes(b)
  {
  }

  // Only buffers that are not empty are sent, and only those are waited for.

  function SharesOf(bits: seq<bool>): seq<Buffer> {
    if bits == [] then [] else [Shares(bits)]
  }

  function ChoicesOf(c: Class, words: seq<nat>): seq<Buffer> {
    if words == [] then [] else [Choices(c, words)]
  }

  function AnsweredOf(c: Class, answers: seq<Entries>): seq<Buffer> {
    if answers == [] then [] else [Answered(c, answers)]
  }

  function SharesSize(n: nat): seq<Size> {
    if n == 0 then [] else [ShareBits(n)]
  }

  function ChoicesSize(c: Class, n: nat): seq<Size> {
    if n == 0 then [] else [ChoiceWords(c, n)]
  }

  function AnsweredSize(c: Class, n: nat): seq<Size> {
    if n == 0 then [] else [AnswerTables(c, n)]
  }

  // ----- the contents ---------------------------------------------------------------------

  function InBits(w: World, r: Role): (nat, nat) -> bool {
    (g: nat, t: nat) => g < |w.gs| && w.mask(r, Offset(w.gs, Inputs(r), g) + t)
  }

  function OutBits(w: World, r: Role): (nat, nat) -> bool {
    (g: nat, t: nat) => g < |w.gs| && w.gs[g].op.Out? && w.share(r, w.gs[g].op.parent, t)
  }

  function LayerInBits(w: World, r: Role, d: nat): seq<bool> {
    Strung(w.gs, Inputs(r), InBits(w, r), Layer(w.gs, d), |Layer(w.gs, d)|)
  }

  function LayerOutBits(w: World, r: Role, d: nat): seq<bool> {
    Strung(w.gs, Outputs(r.Other()), OutBits(w, r), Layer(w.gs, d), |Layer(w.gs, d)|)
  }

  function LayerUpdates(w: World, c: Class, d: nat): seq<nat> {
    Strung(w.gs, Transfers(c), Updates(w), Layer(w.gs, d), |Layer(w.gs, d)|)
  }

  function LayerAnswers(w: World, c: Class, d: nat): seq<Entries> {
    Strung(w.gs, Transfers(c), Answers(w), Layer(w.gs, d), |Layer(w.gs, d)|)
  }

  /** Input and output shares of r on layer d. */
  function ShareBufs(w: World, r: Role, d: nat): seq<Buffer> {
    SharesOf(LayerInBits(w, r, d)) + SharesOf(LayerOutBits(w, r, d))
  }

  function ChoiceBufs(w: World, classes: seq<Class>, d: nat, k: nat): seq<Buffer>
    decreases |classes| - k
  {
    if k >= |classes| then [] else ChoicesOf(classes[k], LayerUpdates(w, classes[k], d)) + ChoiceBufs(w, classes, d, k + 1)
  }

  function AnswerBufs(w: World, classes: seq<Class>, d: nat, k: nat): seq<Buffer>
    decreases |classes| - k
  {
    if k >= |classes| then [] else AnsweredOf(classes[k], LayerAnswers(w, classes[k], d)) + AnswerBufs(w, classes, d, k + 1)
  }

  /** What party r waits for on layer d: the other party's shares, and its updates or its answers. */
  function Expected(w: World, classes: seq<Class>, r: Role, d: nat): seq<Buffer> {
    ShareBufs(w, r.Other(), d) + if r == Sender(d) then ChoiceBufs(w, classes, d, 0) else AnswerBufs(w, classes, d, 0)
  }

  /** What a party has not sent yet when it becomes the receiver of layer d: all it had to say as a sender. */
  function Backlog(w: World, classes: seq<Class>, d: nat): seq<Buffer> {
    if d == 0 then [] else Expected(w, classes, Sender(d), d - 1)
  }

  /** The receiver of layer d sends its backlog and its own messages; the sender sends nothing. */
  function Message(w: World, classes: seq<Class>, r: Role, d: nat): seq<Buffer> {
    if r == Sender(d) then [] else Backlog(w, classes, d) + Expected(w, classes, Sender(d), d)
  }

  lemma FirstMessage(w: World, classes: seq<Class>, r: Role)
    requires r == Sender(0)
    ensures Message(w, classes, r.Other(), 0) == Expected(w, classes, r, 0)
  {
  }

  /** The message of a receiver completes the layer before, and then brings what the sender waits for. */
  lemma NextMessage(w: World, classes: seq<Class>, r: Role, d: nat)
    requires r == Sender(d + 1)
    ensures Message(w, classes, r.Other(), d + 1) == Expected(w, classes, r, d) + Expected(w, classes, r, d + 1)
  {
  }

  // ----- sizes ----------------------------------------------------------------------------

  lemma ChoiceSizes(w: World, classes: seq<Class>, d: nat, k: nat, c: Class)
    requires k < |classes| && c == classes[k]
    ensures Sizes(ChoiceBufs(w, classes, d, k)) == ChoicesSize(c, LayerTakes(w.gs, Transfers(c), d)) + Sizes(ChoiceBufs(w, classes, d, k + 1))
  {
    SizesConcat(ChoicesOf(c, LayerUpdates(w, c, d)), ChoiceBufs(w, classes, d, k + 1));
  }

  lemma AnswerSizes(w: World, classes: seq<Class>, d: nat, k: nat, c: Class)
    requires k < |classes| && c == classes[k]
    ensures Sizes(AnswerBufs(w, classes, d, k)) == AnsweredSize(c, LayerTakes(w.gs, Transfers(c), d)) + Sizes(AnswerBufs(w, classes, d, k + 1))
  {
    SizesConcat(AnsweredOf(c, LayerAnswers(w, c, d)), AnswerBufs(w, classes, d, k + 1));
  }

  /** What a party awaits for the classes from k on: a sender updates, a receiver answers. */
  function AwaitedBufs(w: World, classes: seq<Class>, r: Role, d: nat, k: nat): seq<Buffer> {
    if r == Sender(d) then ChoiceBufs(w, classes, d, k) else AnswerBufs(w, classes, d, k)
  }

  lemma SizesNext(w: World, classes: seq<Class>, r: Role, d: nat, k: nat, c: Class, updates: nat, answers: nat)
    requires k < |classes| && c == classes[k]
    requires updates == if r == Sender(d) then LayerTakes(w.gs, Transfers(c), d) else 0
    requires answers == if r == Sender(d) then 0 else LayerTakes(w.gs, Transfers(c), d)
    ensures Sizes(AwaitedBufs(w, classes, r, d, k)) == ChoicesSize(c, updates) + AnsweredSize(c, answers) + Sizes(AwaitedBufs(w, classes, r, d, k + 1))
  {
    if r == Sender(d) {
      ChoiceSizes(w, classes, d, k, c);
    } else {
      AnswerSizes(w, classes, d, k, c);
    }
  }
}
