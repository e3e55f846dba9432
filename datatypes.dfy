/**
 * The runtime's data types: a fixed size in bytes and a name each, and the
 * lookup from a type name.
 */
module DataTypes {

  datatype DataType = Empty | Char | Bool | Int4 | Imm_Bool | Imm_Int4 | Imm_Str | Register

  /** `size()`: the bytes a value takes in variable storage; a string immediate
      has no fixed size and answers -1. */
  function Size(t: DataType): (n: int)
    ensures n >= 0 <==> t != Imm_Str
    ensures t == Int4 || t == Imm_Int4 ==> n == 4
  {
    match t
    case Empty => 0
    case Char => 1
    case Bool => 2
    case Int4 => 4
    case Imm_Bool => 2
    case Imm_Int4 => 4
    case Imm_Str => -1
    case Register => 8
  }

  /** `toString()`. */
  function Name(t: DataType): string
  {
    match t
    case Empty => "void"
    case Char => "char"
    case Bool => "bool"
    case Int4 => "int4"
    case Imm_Bool => "imm_bool"
    case Imm_Int4 => "imm_int4"
    case Imm_Str => "imm_string"
    case Register => "reg"
  }

  /** `getType(name)`: the three declarable types by their names, Empty for any
      other string. */
  function GetType(name: string): (t: DataType)
    ensures t == Empty || t == Char || t == Bool || t == Int4
    ensures t != Empty <==> name == "char" || name == "bool" || name == "int4"
    ensures t != Empty ==> Name(t) == name
  {
    match name
    case "char" => Char
    case "bool" => Bool
    case "int4" => Int4
    case _ => Empty
  }

  /** `equals` compares names. */
  predicate Equals(a: DataType, b: DataType)
  {
    Name(a) == Name(b)
  }

  /** The names are distinct, so `equals` is equality of the types. */
  lemma EqualsIsIdentity(a: DataType, b: DataType)
    ensures Equals(a, b) <==> a == b
  {
    if Equals(a, b) {
      assert |Name(a)| == |Name(b)| && Name(a)[0] == Name(b)[0];
      assert Name(a)[|Name(a)| - 1] == Name(b)[|Name(b)| - 1];
    }
  }

  /** Looking a declarable type up by its own name gives it back; the other
      names, "void" included, give Empty. */
  lemma GetTypeOfName(t: DataType)
    ensures t == Char || t == Bool || t == Int4 ==> GetType(Name(t)) == t
    ensures !(t == Char || t == Bool || t == Int4) ==> GetType(Name(t)) == Empty
  {
  }
}
