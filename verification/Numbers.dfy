// Arithmetic shared by several modules.
module Numbers {

  function Min(x: nat, y: nat): nat {
    if x <= y then x else y
  }
}
