/** Absolute value, maximum and minimum of numbers. */
module Numbers {
  function Abs(x: real): real { if x < 0.0 then -x else x }

  function Max(x: real, y: real): real { if x < y then y else x }

  function Min(x: real, y: real): real { if y < x then y else x }
}
