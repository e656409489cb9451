/** The back-end (IR) type forms that the type converter produces. */
module IrTypes {

  /** A back-end classifier symbol; its content is opaque to the converter. */
  datatype IrSymbol = IrSymbol(id: nat)

  /** A back-end annotation (constructor call); opaque to the converter. */
  datatype IrAnnotation = IrAnnotation(id: nat)

  datatype Variance = InVariance | OutVariance | Invariant

  datatype IrType =
    | IrErrorType
    | IrSimpleType(classifier: IrSymbol, hasQuestionMark: bool,
                   arguments: seq<IrTypeArgument>, annotations: seq<IrAnnotation>)

  datatype IrTypeArgument =
    | IrStarProjection
    | IrTypeProjection(projected: IrType, variance: Variance)

  /** A non-null, argument-free, unannotated type over a symbol: the shape of a builtin type. */
  function DefaultType(symbol: IrSymbol): IrType {
    IrSimpleType(symbol, false, [], [])
  }

  /** The back end's builtin class symbols and its primitive-array table. */
  datatype IrBuiltIns = IrBuiltIns(
    nothingClass: IrSymbol, unitClass: IrSymbol, booleanClass: IrSymbol,
    stringClass: IrSymbol, anyClass: IrSymbol, longClass: IrSymbol,
    intClass: IrSymbol, shortClass: IrSymbol, byteClass: IrSymbol,
    floatClass: IrSymbol, doubleClass: IrSymbol, charClass: IrSymbol,
    arrayClass: IrSymbol,
    primitiveArrayForType: map<IrType, IrSymbol>)
  {
    function NothingType(): IrType { DefaultType(nothingClass) }
    function UnitType(): IrType { DefaultType(unitClass) }
    function BooleanType(): IrType { DefaultType(booleanClass) }
    function StringType(): IrType { DefaultType(stringClass) }
    function AnyType(): IrType { DefaultType(anyClass) }
    function LongType(): IrType { DefaultType(longClass) }
    function IntType(): IrType { DefaultType(intClass) }
    function ShortType(): IrType { DefaultType(shortClass) }
    function ByteType(): IrType { DefaultType(byteClass) }
    function FloatType(): IrType { DefaultType(floatClass) }
    function DoubleType(): IrType { DefaultType(doubleClass) }
    function CharType(): IrType { DefaultType(charClass) }
    function AnyNType(): IrType { IrSimpleType(anyClass, true, [], []) }
    function NothingNType(): IrType { IrSimpleType(nothingClass, true, [], []) }
  }
}
