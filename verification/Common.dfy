/** Option, decimal digits, session status, and the kinds of name the control plane hands around. */
module Common {

  datatype Option<+T> = None | Some(value: T)

  datatype Status = Starting | Ready | Active | Done | Error

  type SessionId = string
  type Token = string
  type PodName = string
  type User = string

  function Digit(n: nat): char
    requires n < 10
  {
    ('0' as int + n) as char
  }
}
