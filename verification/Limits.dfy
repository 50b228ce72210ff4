/** Why compiling may fail, and how much an operation of the code generator can use up. */
module Limits {
  import opened Wrappers
  import opened LuaVM

  /** A limit of the code generator or of the parser, text that is no expression, or an
      expression outside this model. */
  datatype CompileError =
    | ControlTooLong | TooComplex | ConstantOverflow | TooManyLevels
    | Expected(what: string) | UnexpectedSymbol | NotModelled

  /** luaX_syntaxerror and luaX_lexerror abandon the function being compiled. */
  type Status = Check<CompileError>

  const MAXSTACK: int := 250
  const LUAI_MAXVARS: int := 200
  const LUAI_MAXCCALLS: nat := 200

  /** How much of each limited resource is in use, or is needed. */
  datatype Use = Use(code: int, consts: int, regs: int)

  /** What was needed on top of u explains the failure: a jump that spans too much code,
      one constant too many, or a register past the last. */
  predicate Explained(st: Status, u: Use, need: Use) {
    st.Failed? ==>
      match st.error
      case ControlTooLong => u.code + need.code > MAXARG_sBx
      case ConstantOverflow => u.consts + need.consts > MAXARG_Bx
      case TooComplex => u.regs + need.regs >= MAXSTACK
      case _ => false
  }

  /** From u to u2 no more than `need` has been used. */
  predicate Spent(u: Use, u2: Use, need: Use) {
    u2.code <= u.code + need.code && u2.consts <= u.consts + need.consts && u2.regs <= u.regs + need.regs
  }

  /** need fits into what u leaves. */
  predicate Affordable(u: Use, need: Use) {
    u.code + need.code <= MAXARG_sBx && u.consts + need.consts <= MAXARG_Bx && u.regs + need.regs < MAXSTACK
  }
}
