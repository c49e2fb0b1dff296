/**
 The node types (`node.type`) of the parsed Ruby tree that the three rules
 look at. Every other node type is `Other`.
 */
module Syntax {

  datatype Kind =
    | Begin      // :begin, a sequence of statements
    | KwBegin    // :kwbegin, `begin ... end`
    | Block      // :block, a call with a `{}` or `do ... end` block
    | Hash       // :hash
    | Array      // :array
    | Class      // :class
    | Module     // :module
    | SClass     // :sclass, `class << self`
    | Def        // :def
    | Defs       // :defs, `def self.foo`
    | If         // :if
    | Case       // :case
    | While      // :while
    | Until      // :until
    | For        // :for
    | Send       // :send
    | Const      // :const
    | Args       // :args, a parameter list
    | OptArg     // :optarg, `name = default`
    | KwOptArg   // :kwoptarg, `name: default`
    | Rescue     // :rescue
    | ResBody    // :resbody, one `rescue` clause
    | Ensure     // :ensure
    | Gvar       // :gvar, a global variable reference
    | Other      // any other node type
}
