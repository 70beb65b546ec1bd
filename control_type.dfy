/** The kinds of control the designer can export (the `ControlType` enumeration). */
module ControlTypes {

  datatype ControlType = TextInput | NumericDisplay | ComboBoxInput | SliderInput | ButtonInput
}
