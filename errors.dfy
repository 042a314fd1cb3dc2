/** Every way writing a module can fail; each one aborts that module. */
module SimErrors {
  import opened HdlAst

  datatype Error =
    | UnknownObjectClass(className: string) // no container for the object's class (KeyError)
    | ModuleDecMissing                      // the module definition has no declaration
    | UnresolvedGenerics                    // the declaration still has generic parameters
    | NoValueAttribute                      // a class or enum definition object has no `value`
    | EnumValueUnsupported(member: string)  // an enum member carries an explicit value
    | UnsupportedTypeValue                  // a type value that is neither an enum nor an INDEX call
    | PortMapNotAssociation                 // a port-map entry that is not a MAP_ASSOCIATION call
    | PortMapArity(count: nat)              // the association's operands do not unpack into two
    | PortMapOperandNotName                 // a port or signal in a port map that is not an HdlName
    | ProcessWithoutLabel                   // labels[0] of a process with no label
    | NoSensitivityList                     // a process without a sensitivity list
    | UnknownSensitivityOp(fn: BuiltinFn)   // no sensitivity kind for the operator of an entry
    | EdgeWithoutOperand                    // ops[0] of a sensitivity call without operands
    | OutputsNotSet                         // stm_outputs was never assigned
    | MissingOutputs(processLabel: string) // stm_outputs has no entry for the process
    | OutputNotName                         // an output of a process that is not an HdlName
    | ProcessBodyFailed                     // writing the process body raised
}
