/**
 * The inferred C types that the type helper attaches to source expressions.
 * Only the distinctions the array resolvers look at are kept: numbers,
 * strings, and arrays that either have a fixed size or can grow.
 */
module Types {

  datatype CType =
    | NumberVarType
    | BooleanVarType
    | StringVarType
    | UniversalVarType
    | ArrayType(elementType: CType, capacity: nat, isDynamicArray: bool)
    | StructType(name: string)
    | DictType(elementType: CType)
}
