/**
 * Dynamic style values and their typed conversions. The conversions (`Expr::into_color`,
 * `into_length`, ..., and `TypedExpr::eval`) are defined outside the modelled files, so they
 * enter the model as an `Evaluator`: one function per target type, each answering `None`
 * when the value cannot be narrowed to that type.
 */
module Exprs {
  import opened Wrappers
  import opened Ui

  /**
   * A dynamic style value. The forms the modelled code inspects are explicit; every other
   * literal form (number, colour, length, rect, list, nested style) is an `Other` value.
   */
  datatype Expr = Null | Ident(name: string) | AssetPath(path: string) | Other(tag: nat)

  /** The typed conversions of an `Expr`, one per target type. */
  datatype Evaluator = Evaluator(
    color: Expr -> Option<Option<Color>>,
    int32: Expr -> Option<I32>,
    scalar: Expr -> Option<real>,
    display: Expr -> Option<Display>,
    position: Expr -> Option<PositionType>,
    overflow: Expr -> Option<OverflowAxis>,
    direction: Expr -> Option<Direction>,
    length: Expr -> Option<Val>,
    rect: Expr -> Option<UiRect>,
    flexDirection: Expr -> Option<FlexDirection>,
    flexWrap: Expr -> Option<FlexWrap>,
    alignItems: Expr -> Option<AlignItems>,
    alignSelf: Expr -> Option<AlignSelf>,
    alignContent: Expr -> Option<AlignContent>,
    justifyItems: Expr -> Option<JustifyItems>,
    justifySelf: Expr -> Option<JustifySelf>,
    justifyContent: Expr -> Option<JustifyContent>)
}
