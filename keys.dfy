/** Key names shared by the calendar and the text input. */
module Keys {

  /**
    MODIFIER_KEY_NAMES of the library's constants (that file is not part of this model):
    the `key` values of the modifier keys, which are never dispatched.
  */
  const ModifierKeyNames: set<string> := {"Shift", "Control", "Alt", "Meta"}

  predicate IsModifierKey(key: string)
  {
    key in ModifierKeyNames
  }
}
