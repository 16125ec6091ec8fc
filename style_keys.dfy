/**
 * The keys of the components' style dictionaries. Each atom accepts any
 * string as a variant or size; a string that names no key is not an error
 * but selects the atom's default entry. Looking a string up yields either
 * the key it names or nothing.
 */
module StyleKeys {
  import opened Widgets

  /** Keys of the Button variant tables. */
  datatype ButtonVariant = Primary | Secondary | Danger | Ghost
  {
    function Key(): string
    {
      match this
      case Primary => "primary"
      case Secondary => "secondary"
      case Danger => "danger"
      case Ghost => "ghost"
    }
  }

  /** Keys of the Input variant table. */
  datatype InputVariant = Default | Outlined | Filled
  {
    function Key(): string
    {
      match this
      case Default => "default"
      case Outlined => "outlined"
      case Filled => "filled"
    }
  }

  /** Keys of every size table. */
  datatype Size = Small | Medium | Large
  {
    function Key(): string
    {
      match this
      case Small => "small"
      case Medium => "medium"
      case Large => "large"
    }
  }

  /** The Button variant whose key is `key`, if any. */
  function ParseButtonVariant(key: string): (r: Option<ButtonVariant>)
    ensures r.Some? ==> r.value.Key() == key
    ensures r.None? ==> forall v: ButtonVariant :: v.Key() != key
  {
    if key == "primary" then Some(ButtonVariant.Primary)
    else if key == "secondary" then Some(Secondary)
    else if key == "danger" then Some(ButtonVariant.Danger)
    else if key == "ghost" then Some(Ghost)
    else None
  }

  /** The Input variant whose key is `key`, if any. */
  function ParseInputVariant(key: string): (r: Option<InputVariant>)
    ensures r.Some? ==> r.value.Key() == key
    ensures r.None? ==> forall v: InputVariant :: v.Key() != key
  {
    if key == "default" then Some(Default)
    else if key == "outlined" then Some(Outlined)
    else if key == "filled" then Some(Filled)
    else None
  }

  /** The size whose key is `key`, if any. */
  function ParseSize(key: string): (r: Option<Size>)
    ensures r.Some? ==> r.value.Key() == key
    ensures r.None? ==> forall s: Size :: s.Key() != key
  {
    if key == "small" then Some(Small)
    else if key == "medium" then Some(Medium)
    else if key == "large" then Some(Large)
    else None
  }

  /** Distinct variants have distinct keys, so each key finds its own entry. */
  lemma ButtonVariantKeysRoundTrip(v: ButtonVariant)
    ensures ParseButtonVariant(v.Key()) == Some(v)
  {
  }

  lemma InputVariantKeysRoundTrip(v: InputVariant)
    ensures ParseInputVariant(v.Key()) == Some(v)
  {
  }

  lemma SizeKeysRoundTrip(s: Size)
    ensures ParseSize(s.Key()) == Some(s)
  {
  }
}
