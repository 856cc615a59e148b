/**
 * The light/dark theme of the public pages (javascript/theme.js): the
 * document's `data-theme` attribute, the preference kept in local storage,
 * and the label of the toggle button.
 */
module Tema {
  import opened Wrappers

  /** The local-storage key the preference is kept under. */
  const ChaveTema: string := "erowatch_theme"

  /** The button's content in the dark theme (offering the light one) and in any other. */
  const RotuloClaro: string := "<span class=\"material-icons\">light_mode</span> Modo Claro"
  const RotuloEscuro: string := "<span class=\"material-icons\">dark_mode</span> Modo Escuro"

  /**
   * The theme chosen on load: dark when the stored value is `dark`, or when
   * nothing truthy is stored and the system prefers dark; light otherwise.
   */
  function TemaInicial(salvo: Option<string>, prefereEscuro: bool): string {
    if salvo == Some("dark") || ((salvo.None? || salvo == Some("")) && prefereEscuro) then "dark" else "light"
  }

  /** The theme after a toggle: light from dark, dark from anything else (including no attribute). */
  function Alternado(atual: Option<string>): string {
    if atual == Some("dark") then "light" else "dark"
  }

  /** The button's content for the current attribute. */
  function Rotulo(atual: Option<string>): string {
    if atual == Some("dark") then RotuloClaro else RotuloEscuro
  }

  /**
   * The initial theme is always one of the two, and dark exactly when the
   * stored value is `dark` or nothing is stored (absent or empty) and the
   * system prefers dark; a stored `light`, or any other stored text, wins
   * over the system's preference.
   */
  lemma TemaInicialRegras(salvo: Option<string>, prefereEscuro: bool)
    ensures TemaInicial(salvo, prefereEscuro) in {"dark", "light"}
    ensures TemaInicial(salvo, prefereEscuro) == "dark" <==>
      salvo == Some("dark") || ((salvo.None? || salvo == Some("")) && prefereEscuro)
    ensures salvo.Some? && salvo.value != "" && salvo.value != "dark" ==> TemaInicial(salvo, prefereEscuro) == "light"
  {
  }

  /**
   * A toggle gives light exactly from dark; two toggles restore dark and
   * light, and turn any other attribute (or none) into light.
   */
  lemma AlternarRegras(atual: Option<string>)
    ensures Alternado(atual) == "light" <==> atual == Some("dark")
    ensures Alternado(atual) in {"dark", "light"}
    ensures atual == Some("dark") || atual == Some("light") ==> Alternado(Some(Alternado(atual))) == atual.value
    ensures atual != Some("dark") && atual != Some("light") ==> Alternado(Some(Alternado(atual))) == "light"
  {
  }

  /** The label reads "Modo Claro" exactly in the dark theme, and the two labels differ. */
  lemma RotuloRegras(atual: Option<string>)
    ensures Rotulo(atual) == RotuloClaro <==> atual == Some("dark")
    ensures RotuloClaro != RotuloEscuro
  {
    assert RotuloClaro[35] != RotuloEscuro[35];
  }

  /** The page's theme state: the attribute, local storage and the toggle button. */
  class ThemeManager {
    /** The document element's `data-theme` attribute; `None` before one is set. */
    var tema: Option<string>
    /** Local storage. */
    var armazenamento: map<string, string>
    /** Whether the page has a `themeToggleBtn`. */
    const temBotao: bool
    /** The button's content. */
    var rotulo: string

    /** The page before `init`: no attribute yet, the given storage and button. */
    constructor (armazenamento: map<string, string>, temBotao: bool, rotulo: string)
      ensures tema == None && this.armazenamento == armazenamento
      ensures this.temBotao == temBotao && this.rotulo == rotulo
    {
      tema := None;
      this.armazenamento := armazenamento;
      this.temBotao := temBotao;
      this.rotulo := rotulo;
    }

    /** The stored preference, `null` when the key is absent. */
    function Salvo(): Option<string>
      reads this
    {
      if ChaveTema in armazenamento then Some(armazenamento[ChaveTema]) else None
    }

    /** `updateButtonIcon`: rewrites the label when the button exists. */
    method AtualizarIcone()
      modifies this
      ensures tema == old(tema) && armazenamento == old(armazenamento)
      ensures rotulo == (if temBotao then Rotulo(tema) else old(rotulo))
    {
      if !temBotao {
        return;
      }
      rotulo := Rotulo(tema);
    }

    /** `applySavedTheme`, with the system's preference as a parameter. */
    method AplicarTemaSalvo(prefereEscuro: bool)
      modifies this
      ensures tema == Some(TemaInicial(old(Salvo()), prefereEscuro))
      ensures armazenamento == old(armazenamento)
      ensures rotulo == (if temBotao then Rotulo(tema) else old(rotulo))
    {
      var salvo := Salvo();
      if salvo == Some("dark") || ((salvo.None? || salvo == Some("")) && prefereEscuro) {
        tema := Some("dark");
      } else {
        tema := Some("light");
      }
      AtualizarIcone();
    }

    /** `toggleTheme`: flips the attribute, stores it under the theme key and nothing else, and relabels the button. */
    method AlternarTema()
      modifies this
      ensures tema == Some(Alternado(old(tema)))
      ensures armazenamento == old(armazenamento)[ChaveTema := Alternado(old(tema))]
      ensures Salvo() == tema
      ensures rotulo == (if temBotao then Rotulo(tema) else old(rotulo))
    {
      var atual := tema;
      var novo := if atual == Some("dark") then "light" else "dark";
      tema := Some(novo);
      armazenamento := armazenamento[ChaveTema := novo];
      AtualizarIcone();
    }

    /**
     * `init`: applies the saved theme, then sets up the button (its click
     * handler is `AlternarTema`) and labels it again.
     */
    method Iniciar(prefereEscuro: bool)
      modifies this
      ensures tema == Some(TemaInicial(old(Salvo()), prefereEscuro))
      ensures armazenamento == old(armazenamento)
      ensures rotulo == (if temBotao then Rotulo(tema) else old(rotulo))
    {
      AplicarTemaSalvo(prefereEscuro);
      if temBotao {
        AtualizarIcone();
      }
    }
  }
}
