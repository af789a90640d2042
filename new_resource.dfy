/**
 * The new-resource page (core/web/src/pages/NewResource.tsx): the list of
 * associated words the user builds one at a time, and the form validation.
 */
module NewResource {
  import opened Wrappers
  import opened Text

  const MaxPalabras: nat := 10

  /** The words the page can hold: trimmed, non-empty, no repeats, at most ten. */
  predicate GoodWords(ws: seq<string>) {
    |ws| <= MaxPalabras && Distinct(ws) && forall i :: 0 <= i < |ws| ==> ws[i] != "" && Trim(ws[i]) == ws[i]
  }

  class NewResourcePage {
    var pors: string
    var nombreProducto: string
    var descripcion: string
    /** The text of the word input. */
    var palabra: string
    var palabras: seq<string>

    /** The page as it opens: the stored resource's fields, an empty word input and no words. */
    constructor(rType: string, name: string, description: string)
      ensures pors == rType && nombreProducto == name && descripcion == description
      ensures palabra == "" && palabras == []
      ensures GoodWords(palabras)
    {
      pors := rType;
      nombreProducto := name;
      descripcion := description;
      palabra := "";
      palabras := [];
    }

    /** Typing in the word input. */
    method SetPalabra(v: string)
      modifies this`palabra
      ensures palabra == v
    {
      palabra := v;
    }

    /**
     * `handleAgregar`: the trimmed input is appended when it is non-blank, not
     * already listed and fewer than ten words are listed; only then is the
     * input cleared. Otherwise nothing changes.
     */
    method HandleAgregar()
      requires GoodWords(palabras)
      modifies this`palabras, this`palabra
      ensures var nueva := Trim(old(palabra));
        if nueva != "" && nueva !in old(palabras) && |old(palabras)| < MaxPalabras
        then palabras == old(palabras) + [nueva] && palabra == ""
        else palabras == old(palabras) && palabra == old(palabra)
      ensures GoodWords(palabras)
    {
      var nueva := Trim(palabra);
      if nueva != "" && nueva !in palabras && |palabras| < MaxPalabras {
        TrimIdempotent(palabra);
        palabras := palabras + [nueva];
        palabra := "";
      }
    }

    /** `eliminarPalabra`: every entry equal to the word goes, the others stay in order. */
    method EliminarPalabra(x: string)
      requires GoodWords(palabras)
      modifies this`palabras
      ensures palabras == Without(old(palabras), x)
      ensures x !in palabras
      ensures GoodWords(palabras)
    {
      var ws := palabras;
      var r := Without(ws, x);
      WithoutDistinct(ws, x);
      forall i | 0 <= i < |r| ensures r[i] != "" && Trim(r[i]) == r[i] {
        assert r[i] in ws;
        var j :| 0 <= j < |ws| && ws[j] == r[i];
      }
      palabras := r;
    }
  }

  /** The errors object: one optional message per field. */
  datatype Errors = Errors(pors: Option<string>, nombreProducto: Option<string>,
                           descripcion: Option<string>, palabras: Option<string>)

  const Required: string := "Este campo es obligatorio"
  const NeedAWord: string := "Añadir al menos una palabra asociada"

  /** `validarFormulario`: the three text fields must be non-blank and a word must be listed. */
  method ValidarFormulario(pors: string, nombreProducto: string, descripcion: string, palabras: seq<string>)
    returns (errors: Errors, valid: bool)
    ensures errors.pors == if Blank(pors) then Some(Required) else None
    ensures errors.nombreProducto == if Blank(nombreProducto) then Some(Required) else None
    ensures errors.descripcion == if Blank(descripcion) then Some(Required) else None
    ensures errors.palabras == if palabras == [] then Some(NeedAWord) else None
    ensures valid <==> errors == Errors(None, None, None, None)
    ensures valid <==> !Blank(pors) && !Blank(nombreProducto) && !Blank(descripcion) && palabras != []
  {
    errors := Errors(None, None, None, None);
    if Trim(pors) == "" { errors := errors.(pors := Some(Required)); }
    if Trim(nombreProducto) == "" { errors := errors.(nombreProducto := Some(Required)); }
    if Trim(descripcion) == "" { errors := errors.(descripcion := Some(Required)); }
    if |palabras| == 0 { errors := errors.(palabras := Some(NeedAWord)); }
    valid := errors.pors.None? && errors.nombreProducto.None? && errors.descripcion.None? && errors.palabras.None?;
  }
}
