/** The configuration crate's error type as the core uses it: only `ConfigError::Message`. */
module ConfigErrors {

  datatype ConfigError = Message(text: string)
}
