/** The exceptions the combat entities raise: the game's own InvalidEquipError
    and the Python built-in exceptions that the entity code raises or runs into.
    The string carried by most of them names the offending field, key or attribute. */
module Errors {

  datatype Error =
    | TypeError(what: string)
    | ValueError(what: string)
    | KeyError(key: string)
    | AttributeError(attribute: string)
    | RecursionError
    | InvalidEquipError
}
