/** The code the second pass writes, as terms. A term stands for the bracketed
    text the compiler joins; a line is one entry of its source list. */
module JsCode {
  import opened HandlebarsAst

  datatype JsExpr =
    | Constant(literal: Literal)
    | EmptyObject
    | DepthVar(depth: nat, listed: bool)              // depthN, or depths[N] when listed
    | DataVar(depth: nat)                             // data, container.data(data, N)
    | BlockParamVar(depth: nat, index: nat)
    | BlockParamPath(depth: nat, index: nat, child: string)
    | Temp(slot: nat)                                 // stackN
    | SetTemp(slot: nat, value: JsExpr)               // (stackN = value)
    | Get(subject: JsExpr, name: string)               // subject.name
    | IfNotNull(test: JsExpr, yes: JsExpr, no: JsExpr)
    | And(left: JsExpr, right: JsExpr)
    | Or(alternatives: seq<JsExpr>)
    | Lambda(value: JsExpr)                           // container.lambda(value, depth0)
    | Escape(value: JsExpr)                           // container.escapeExpression(value)
    | Helper(name: string)                            // helpers.name
    | Invoke(callee: JsExpr, args: seq<JsExpr>, options: JsExpr) // callee.call(depth0 or {}, args, options)
    | InvokeMissing(value: JsExpr, options: JsExpr)   // helpers.blockHelperMissing.call(depth0, value, options)
    | NamedPartial(name: string)                      // partials.name
    | PartialOf(callee: JsExpr, context: JsExpr, options: JsExpr, indent: string)
    | ObjectOf(fields: seq<Field>)
    | OptionsOf(name: string, hash: JsExpr, program: JsExpr, inverse: JsExpr, extras: Extras)
    | OptionsVar
    | SetOptions(options: JsExpr)                     // options={...}
    | HelperVar
    | SetHelper(value: JsExpr)                        // (helper = value)
    | IfFunction(yes: JsExpr, no: JsExpr)             // typeof helper === "function" ? yes : no
    | Comma(first: JsExpr, second: JsExpr)
    | ProgramRef(guid: nat, depths: bool)             // container.program(...), handing depths on or not
    | NoProgram                                       // the null literal of a missing program

  datatype Field = Field(key: string, value: JsExpr)

  /** The option entries that `trackIds` and `stringParams` add. */
  datatype Extras = Extras(hashIds: seq<JsExpr>, hashTypes: seq<JsExpr>, hashContexts: seq<JsExpr>,
                           ids: seq<JsExpr>, types: seq<JsExpr>, contexts: seq<JsExpr>)

  datatype Line =
    | Appended(value: JsExpr)                         // carries the appendToBuffer mark
    | Return(value: JsExpr)
    | Assign(slot: nat, value: JsExpr)                // stackN = value;
    | AppendIf(local: JsExpr)                         // if (local != null) { buffer += local; }
    | ReturnIf(local: JsExpr)                         // if (local != null) { return local; }
    | ElseReturnEmpty                                 // else { return ''; }
    | UnlessHelper(helper: JsExpr, target: JsExpr, value: JsExpr) // if (!helper) { target = value }
    | ReturnBuffer                                    // return buffer;

  /** What `mergeSource` writes before a line. */
  datatype Prefix = NoPrefix | Plus | BufferPlus | ReturnSum | ReturnBufferPlus

  datatype SourceLine = SourceLine(line: Line, prefix: Prefix, semicolon: bool)

  /** The declaration of `buffer`: none, `buffer = "";`, or `buffer = ` completed by the first lines. */
  datatype BufferVar = NoBuffer | EmptyBuffer | BufferFromFirst

  datatype Body = Body(bufferVar: BufferVar, lines: seq<SourceLine>)

  /** A compiled program and the programs it refers to by guid. */
  datatype Template = Template(body: Body, children: seq<Template>)
}
