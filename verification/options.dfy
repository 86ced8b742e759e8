/** The optional-value wrapper used throughout the model: Kotlin's nullable
    types (`Bundle?`, `View?`) and "no download" decisions become `Option`. */
module Options {

  datatype Option<+T> = None | Some(value: T)
}
