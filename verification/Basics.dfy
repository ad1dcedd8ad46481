/** Types every part of the model uses. */
module Basics {
  datatype Option<T> = None | Some(value: T)

  newtype Byte = x: int | 0 <= x < 256

  type Url = string

  /** A paired host: where its gateway is and the token it gave this device. */
  datatype Config = Config(url: Url, token: string)

  function Digits(n: nat): string {
    if n < 10 then ["0123456789"[n]] else Digits(n / 10) + ["0123456789"[n % 10]]
  }

  /** A whole number as it is printed. */
  function Decimal(n: int): string {
    if n < 0 then "-" + Digits(-n) else Digits(n)
  }
}
