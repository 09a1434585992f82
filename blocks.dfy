/** The in-memory block tree the interpreter walks, and the read-only accessors
    the evaluators use on it.

    A block carries a type tag, named string fields, named value sockets (each
    holding the blocks attached to it), named statement sockets, optional
    mutation metadata and an optional `next` block continuing a statement chain.
    The accessor implementations are not part of this model; they are given the
    behaviour the evaluators rely on, and the messages of the two failing
    accessors are stand-ins. */
module Blocks {
  import opened Values

  datatype Field = Field(name: string, value: string)

  datatype Socket = Socket(name: string, blocks: seq<Block>)

  /** Mutation metadata: the `else if` and `else` counts of a conditional, and
      the procedure name and argument names of a procedure call. */
  datatype Mutation = Mutation(elseIf: int, elseCount: int, name: string, args: seq<string>)

  datatype Block = Block(
    tag: string,
    fields: seq<Field>,
    values: seq<Socket>,
    statements: seq<Socket>,
    mutation: Option<Mutation>,
    next: Option<Block>)

  /** The value of the first field called `name`. */
  function FindField(fields: seq<Field>, name: string): (r: Option<string>)
    ensures r.Some? <==> exists i :: 0 <= i < |fields| && fields[i].name == name
    ensures r.Some? ==> exists i :: 0 <= i < |fields| && fields[i] == Field(name, r.value)
  {
    if fields == [] then None
    else if fields[0].name == name then Some(fields[0].value)
    else FindField(fields[1..], name)
  }

  /** The blocks attached to the first socket called `name`. */
  function FindSocket(sockets: seq<Socket>, name: string): (r: Option<seq<Block>>)
    ensures r.Some? <==> exists i :: 0 <= i < |sockets| && sockets[i].name == name
    ensures r.Some? ==> exists i :: 0 <= i < |sockets| && sockets[i] == Socket(name, r.value)
  {
    if sockets == [] then None
    else if sockets[0].name == name then Some(sockets[0].blocks)
    else FindSocket(sockets[1..], name)
  }

  /** A field's value, or None when the block has no such field. */
  function FieldWithName(b: Block, name: string): Option<string>
  {
    FindField(b.fields, name)
  }

  /** A field's value; a missing field is a failure. */
  function SingleFieldWithName(b: Block, name: string): (r: Result<string>)
    ensures r.Ok? <==> FieldWithName(b, name).Some?
  {
    match FieldWithName(b, name)
    case None => Err("No field named '" + name + "'")
    case Some(v) => Ok(v)
  }

  /** The blocks attached to a value socket, or None when there is no such socket. */
  function BlockValueWithName(b: Block, name: string): Option<seq<Block>>
  {
    FindSocket(b.values, name)
  }

  /** The one block attached to a value socket; a missing socket, or one that
      does not hold exactly one block, is a failure. */
  function SingleBlockValueWithName(b: Block, name: string): (r: Result<Block>)
    ensures r.Ok? <==> BlockValueWithName(b, name).Some? && |BlockValueWithName(b, name).value| == 1
    ensures r.Ok? ==> r.value == BlockValueWithName(b, name).value[0]
  {
    match BlockValueWithName(b, name)
    case None => Err("No value named '" + name + "'")
    case Some(bs) =>
      if |bs| == 1 then Ok(bs[0]) else Err("Value '" + name + "' does not hold exactly one block")
  }

  /** The first block of a statement socket, or None (a nil block) when the
      socket is missing or empty. */
  function SingleBlockStatementWithName(b: Block, name: string): (r: Option<Block>)
    ensures r.Some? <==> FindSocket(b.statements, name).Some? && FindSocket(b.statements, name).value != []
  {
    match FindSocket(b.statements, name)
    case None => None
    case Some(bs) => if bs == [] then None else Some(bs[0])
  }

  function Digit(d: nat): char
    requires d < 10
  {
    "0123456789"[d]
  }

  /** Decimal rendering of a natural number, as Go's `%d` prints it. */
  function NatToString(n: nat): (s: string)
    ensures |s| >= 1
    ensures forall i :: 0 <= i < |s| ==> '0' <= s[i] <= '9'
  {
    if n < 10 then [Digit(n)] else NatToString(n / 10) + [Digit(n % 10)]
  }
}
